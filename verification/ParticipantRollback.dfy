/** The rollback of the participant gateway. Exposure closes first, then Flux is
    suspended, then the rest goes, and the network isolation goes last of all. */
module ParticipantRollback {
  import opened Wrappers
  import opened ApiServer
  import opened FluxTracking
  import opened ParticipantObjects

  /** The names in the order in which the quiet check visits them. */
  const NAMES: seq<Logical> := [GatewayDeployment, GatewayIngress, GatewayNetworkPolicy,
                                GatewayService, GatewayServiceAccount, WorkbenchNetworkPolicy]

  const OWNERS: seq<Owner> := [Gateway, WorkbenchIngress]

  /** The queries for what a Deployment leaves running, by the gateway labels. */
  const PODS := Key(PodKind, GATEWAY_NAMESPACE, "participant gateway labels")
  const REPLICA_SETS := Key(ReplicaSetKind, GATEWAY_NAMESPACE, "participant gateway labels")

  function Kustomization(owner: Owner): Key {
    Key(KustomizationKind, FLUX_NAMESPACE,
        match owner
        case Gateway => "roebel-staging-participant-gateway"
        case WorkbenchIngress => "roebel-staging-participant-workbench-ingress")
  }

  /** The Kustomizations as they were bound before the run, and the suspended body each must have. */
  datatype Bootstrap = Bootstrap(gateway: Obj, workbench: Obj, gatewayDormant: Body, workbenchDormant: Body) {
    function At(owner: Owner): Obj {
      match owner case Gateway => gateway case WorkbenchIngress => workbench
    }

    function Dormant(owner: Owner): Body {
      match owner case Gateway => gatewayDormant case WorkbenchIngress => workbenchDormant
    }

    predicate Valid() {
      gatewayDormant.suspended && workbenchDormant.suspended
    }
  }

  datatype Preserved = Preserved(key: Key, obj: Obj)

  /** In milliseconds. */
  datatype Timing = Timing(rollback: nat, quiet: nat, poll: nat)

  /** Everything a rollback is given. `exact` is the recovery profile in which the
      suspended Kustomizations must not have changed at all. */
  datatype Case = Case(render: Render, nonce: nat, created: seq<Created>, bootstrap: Option<Bootstrap>,
                       preserved: seq<Preserved>, uncertain: Option<Logical>,
                       rendered: bool, rebind: bool, exact: bool, timing: Timing) {
    predicate Valid() {
      && timing.poll > 0
      && (bootstrap.Some? ==> bootstrap.value.Valid())
      && (forall i, j :: 0 <= i < j < |created| ==> created[i].logical != created[j].logical)
      && (forall i :: 0 < i < |created| ==> created[i].logical != GatewayNetworkPolicy)
    }
  }

  function Find(created: seq<Created>, l: Logical): (r: Option<Created>)
    ensures r.Some? ==> r.value in created && r.value.logical == l
    ensures r.None? ==> forall c <- created :: c.logical != l
  {
    if created == [] then None else if created[0].logical == l then Some(created[0]) else Find(created[1..], l)
  }

  predicate Has(created: seq<Created>, l: Logical) {
    Find(created, l).Some?
  }

  // ------------------------------------------------------------ observations

  /** What a single read can show. */
  datatype Fact = Missing(key: Key) | Suspended(key: Key, uid: nat) | Unchanged(key: Key, obj: Obj)

  predicate Shows(s: Sighting, fact: Fact) {
    && s.key == fact.key
    && match fact
       case Missing(_) => s.found.None?
       case Suspended(_, uid) => s.found.Some? && s.found.value.uid == uid && s.found.value.body.suspended
       case Unchanged(_, obj) => s.found == Some(obj)
  }

  /** Some read from number `lo` on, and before number `hi`, showed the fact. */
  ghost predicate Saw(s: seq<Sighting>, lo: nat, hi: nat, fact: Fact) {
    exists i :: lo <= i < hi <= |s| && Shows(s[i], fact)
  }

  ghost predicate SawBothSuspended(s: seq<Sighting>, lo: nat, hi: nat, bootstrap: Bootstrap) {
    && Saw(s, lo, hi, Suspended(Kustomization(Gateway), bootstrap.gateway.uid))
    && Saw(s, lo, hi, Suspended(Kustomization(WorkbenchIngress), bootstrap.workbench.uid))
  }

  ghost predicate SawRuntimeGone(s: seq<Sighting>, lo: nat, hi: nat) {
    && Saw(s, lo, hi, Missing(Target(GatewayDeployment)))
    && Saw(s, lo, hi, Missing(PODS)) && Saw(s, lo, hi, Missing(REPLICA_SETS))
  }

  /** The isolation may go: both Kustomizations were seen suspended, and after that the
      Deployment, its Pods and its ReplicaSets were seen gone. */
  ghost predicate MayDropIsolation(s: seq<Sighting>, lo: nat, hi: nat, bootstrap: Option<Bootstrap>) {
    exists m: nat ::
      && lo <= m <= hi
      && (bootstrap.Some? ==> SawBothSuspended(s, lo, m, bootstrap.value))
      && SawRuntimeGone(s, m, hi)
  }

  lemma SawMore(s: seq<Sighting>, more: seq<Sighting>, lo: nat, hi: nat, later: nat, fact: Fact)
    requires s <= more && Saw(s, lo, hi, fact) && hi <= later <= |more|
    ensures Saw(more, lo, later, fact)
  {
    var i :| lo <= i < hi && Shows(s[i], fact);
    assert Shows(more[i], fact);
  }

  lemma MayDropMore(s: seq<Sighting>, more: seq<Sighting>, lo: nat, hi: nat, later: nat, bootstrap: Option<Bootstrap>)
    requires s <= more && MayDropIsolation(s, lo, hi, bootstrap) && hi <= |s| && hi <= later <= |more|
    ensures MayDropIsolation(more, lo, later, bootstrap)
  {
    var m: nat :| lo <= m <= hi && (bootstrap.Some? ==> SawBothSuspended(s, lo, m, bootstrap.value)) && SawRuntimeGone(s, m, hi);
    if bootstrap.Some? {
      SawMore(s, more, lo, m, m, Suspended(Kustomization(Gateway), bootstrap.value.gateway.uid));
      SawMore(s, more, lo, m, m, Suspended(Kustomization(WorkbenchIngress), bootstrap.value.workbench.uid));
    }
    SawMore(s, more, m, hi, later, Missing(Target(GatewayDeployment)));
    SawMore(s, more, m, hi, later, Missing(PODS));
    SawMore(s, more, m, hi, later, Missing(REPLICA_SETS));
    assert SawRuntimeGone(more, m, later);
  }

  // ------------------------------------------------------- the quiet interval

  /** When a read was asked for, and when its answer was there, by the rollback's clock. */
  datatype Stamp = Stamp(asked: nat, answered: nat)

  /** One read after the other. */
  predicate Stamped(stamps: seq<Stamp>, clock: nat) {
    && (forall i :: 0 <= i < |stamps| ==> stamps[i].asked <= stamps[i].answered <= clock)
    && (forall i, j :: 0 <= i < j < |stamps| ==> stamps[i].answered <= stamps[j].asked)
  }

  /** Six reads in a row found all six names absent. */
  predicate ClearRound(s: seq<Sighting>, at: nat) {
    at + 6 <= |s| && forall i :: 0 <= i < 6 ==> Shows(s[at + i], Missing(Target(NAMES[i])))
  }

  /** Consecutive clear rounds, the first from read `first` on. */
  predicate Quiet(s: seq<Sighting>, first: nat, rounds: nat) {
    forall j :: 0 <= j < rounds ==> ClearRound(s, first + 6 * j)
  }

  /** The round from read `last` on began the interval after the one from read `first`
      on, and before the deadline. */
  predicate Apart(stamps: seq<Stamp>, first: nat, last: nat, quiet: nat, deadline: nat) {
    first <= last < |stamps| && stamps[first].asked + quiet <= stamps[last].asked < deadline
  }

  /** At least two consecutive checks saw all names absent, and the last of them began
      the quiet interval after the first, and before the deadline. */
  ghost predicate WasQuiet(s: seq<Sighting>, stamps: seq<Stamp>, lo: nat, hi: nat, quiet: nat, deadline: nat) {
    exists first: nat, rounds: nat ::
      && lo <= first && first + 6 * rounds <= hi && rounds >= 2
      && Quiet(s, first, rounds) && Apart(stamps, first, first + 6 * (rounds - 1), quiet, deadline)
  }

  /** If anything was read since read number `n`, one of the last `most` reads was asked
      for before the deadline. */
  ghost predicate InTime(stamps: seq<Stamp>, deadline: nat, n: nat, most: nat) {
    |stamps| > n ==> exists k :: n <= k < |stamps| && |stamps| - most <= k && stamps[k].asked < deadline
  }

  lemma StillInTime(few: seq<Stamp>, many: seq<Stamp>, deadline: nat, n: nat, most: nat)
    requires few <= many && n <= |few| && InTime(few, deadline, n, most) && InTime(many, deadline, |few|, most)
    ensures InTime(many, deadline, n, most)
  {
    if |many| == |few| {
      assert many == few;
    }
  }

  /** The looks from read number `n` on were waited for this long, counted from the first:
      all but the last were answered before the time was up. */
  predicate Waited(stamps: seq<Stamp>, n: nat, time: nat) {
    forall k :: n <= k < |stamps| - 1 ==> stamps[k].answered < stamps[n].asked + time
  }

  lemma NoWait(stamps: seq<Stamp>, n: nat, time: nat)
    requires |stamps| <= n + 1
    ensures Waited(stamps, n, time)
  {
  }

  lemma WaitLess(stamps: seq<Stamp>, n: nat, time: nat, more: nat)
    requires Waited(stamps, n, time) && time <= more
    ensures Waited(stamps, n, more)
  {
  }

  lemma QuietMore(s: seq<Sighting>, more: seq<Sighting>, first: nat, rounds: nat)
    requires s <= more && Quiet(s, first, rounds)
    ensures Quiet(more, first, rounds)
  {
    forall j | 0 <= j < rounds
      ensures ClearRound(more, first + 6 * j)
    {
      assert ClearRound(s, first + 6 * j);
    }
  }

  lemma WasQuietMore(s: seq<Sighting>, more: seq<Sighting>, stamps: seq<Stamp>, later: seq<Stamp>,
                     lo: nat, hi: nat, quiet: nat, deadline: nat)
    requires s <= more && stamps <= later && WasQuiet(s, stamps, lo, hi, quiet, deadline)
    ensures WasQuiet(more, later, lo, hi, quiet, deadline)
  {
    var first: nat, rounds: nat :|
      && lo <= first && first + 6 * rounds <= hi && rounds >= 2
      && Quiet(s, first, rounds) && Apart(stamps, first, first + 6 * (rounds - 1), quiet, deadline);
    QuietMore(s, more, first, rounds);
    assert Apart(later, first, first + 6 * (rounds - 1), quiet, deadline);
  }

  /** What was quiet is so behind any earlier reads. */
  lemma LaterQuiet(early: seq<Sighting>, times: seq<Stamp>, s: seq<Sighting>, stamps: seq<Stamp>, lo: nat, hi: nat, quiet: nat, deadline: nat)
    requires |early| == |times| && WasQuiet(s, stamps, lo, hi, quiet, deadline)
    ensures WasQuiet(early + s, times + stamps, |early| + lo, |early| + hi, quiet, deadline)
  {
    hide ClearRound;
    var first: nat, rounds: nat :|
      && lo <= first && first + 6 * rounds <= hi && rounds >= 2
      && Quiet(s, first, rounds) && Apart(stamps, first, first + 6 * (rounds - 1), quiet, deadline);
    var n := |early|;
    forall j | 0 <= j < rounds
      ensures ClearRound(early + s, n + first + 6 * j)
    {
      ClearLater(early, s, first + 6 * j);
    }
    assert Quiet(early + s, n + first, rounds);
    assert Apart(times + stamps, n + first, n + first + 6 * (rounds - 1), quiet, deadline);
  }

  lemma ClearLater(early: seq<Sighting>, s: seq<Sighting>, at: nat)
    requires ClearRound(s, at)
    ensures ClearRound(early + s, |early| + at)
  {
    forall i | 0 <= i < 6
      ensures Shows((early + s)[|early| + at + i], Missing(Target(NAMES[i])))
    {
      assert (early + s)[|early| + at + i] == s[at + i];
    }
  }

  /** The interval is counted from the moment at which a round begins. When the very
      first answer takes that long, all twelve answers may come at one moment, for any
      interval. */
  lemma AnswersMayLieCloser(quiet: nat) returns (s: seq<Sighting>, stamps: seq<Stamp>)
    ensures Stamped(stamps, quiet) && WasQuiet(s, stamps, 0, 12, quiet, quiet + 1)
    ensures |s| == |stamps| == 12 && forall i :: 0 <= i < 12 ==> stamps[i].answered == quiet
  {
    var round := seq(6, i requires 0 <= i < 6 => Sighting(Target(NAMES[i]), None, 0));
    s, stamps := round + round, [Stamp(0, quiet)] + seq(11, i => Stamp(quiet, quiet));
    ClearTwice(round);
    hide ClearRound;
    assert Apart(stamps, 0, 0 + 6 * (2 - 1), quiet, quiet + 1);
  }

  lemma ClearTwice(round: seq<Sighting>)
    requires |round| == 6 && ClearRound(round, 0)
    ensures Quiet(round + round, 0, 2)
  {
    hide ClearRound, Shows;
    var s := round + round;
    ClearWithin(round, s, 0);
    ClearWithin(round, s, 6);
    forall j | 0 <= j < 2
      ensures ClearRound(s, 0 + 6 * j)
    {
      assert j == 0 || j == 1;
    }
  }

  lemma ClearWithin(round: seq<Sighting>, s: seq<Sighting>, at: nat)
    requires ClearRound(round, 0) && at + |round| <= |s| && forall i :: 0 <= i < |round| ==> s[at + i] == round[i]
    ensures ClearRound(s, at)
  {
    hide Shows, Target;
    forall i | 0 <= i < 6
      ensures Shows(s[at + i], Missing(Target(NAMES[i])))
    {
      assert Shows(round[0 + i], Missing(Target(NAMES[i])));
    }
  }

  // ----------------------------------------------------------------- requests

  /** What the code demands of an object before it deletes it. */
  predicate DeletableAs(c: Case, item: Created, o: Obj) {
    var desired := c.render(item.logical);
    && o.uid == item.uid
    && if item.nonceRemoved then
         && o.mark.Unmarked? && o.body.(tracking := Untracked) == desired
         && if c.exact then o.body.tracking.Tracked? else !o.body.tracking.Mislabelled?
       else
         o.body == desired && (o.mark == Ours(c.nonce) || o.mark.Unmarked?)
  }

  /** The read before number `hi` showed the object in this version, and deletable. */
  predicate JustRead(c: Case, item: Created, version: nat, s: seq<Sighting>, lo: nat, hi: nat) {
    && lo < hi <= |s| && s[hi - 1].key == Target(item.logical) && s[hi - 1].found.Some?
    && s[hi - 1].found.value.version == version && DeletableAs(c, item, s[hi - 1].found.value)
  }

  /** A request that a rollback may send, and when: deletions of own objects as they were
      just read, the isolation only on proof, and suspensions. */
  ghost predicate Justified(c: Case, e: Event, s: seq<Sighting>, lo: nat, hi: nat) {
    match e
    case DeleteSent(key, uid, version) =>
      && (exists item <- c.created :: Target(item.logical) == key && item.uid == uid && JustRead(c, item, version, s, lo, hi))
      && (key == Target(GatewayNetworkPolicy) ==> MayDropIsolation(s, lo, hi, c.bootstrap))
    case SuspendSent(key, suspend) => suspend && (key == Kustomization(Gateway) || key == Kustomization(WorkbenchIngress))
    case PostSent(_) => false
    case PatchSent(_, _, _) => false
  }

  predicate DropsIsolation(e: Event) {
    e.DeleteSent? && e.key == Target(GatewayNetworkPolicy)
  }

  /** All requests from number `from` on were justified by the reads from number `lo` on. */
  ghost predicate AllJustified(c: Case, trace: seq<Event>, seen: seq<nat>, s: seq<Sighting>, from: nat, lo: nat)
    requires |trace| == |seen|
  {
    forall p :: from <= p < |trace| ==> lo <= seen[p] <= |s| && Justified(c, trace[p], s, lo, seen[p])
  }

  /** The isolation was not dropped before request number `to`. */
  ghost predicate Isolated(trace: seq<Event>, from: nat, to: int) {
    forall p :: from <= p < to && p < |trace| ==> !DropsIsolation(trace[p])
  }

  lemma JustifiedMore(c: Case, trace: seq<Event>, seen: seq<nat>, s: seq<Sighting>, more: seq<Sighting>, from: nat, lo: nat)
    requires |trace| == |seen| && s <= more && AllJustified(c, trace, seen, s, from, lo)
    ensures AllJustified(c, trace, seen, more, from, lo)
  {
    forall p | from <= p < |trace|
      ensures lo <= seen[p] <= |more| && Justified(c, trace[p], more, lo, seen[p])
    {
      assert Justified(c, trace[p], s, lo, seen[p]);
      if DropsIsolation(trace[p]) {
        MayDropMore(s, more, lo, seen[p], seen[p], c.bootstrap);
      }
    }
  }

  // ------------------------------------------------------------- the records

  /** The record fits the deletion of this object. */
  predicate Fits(record: Record, item: Created) {
    && record.logical == item.logical
    && (record.Deleted? ==> record.uid == item.uid && record.version >= item.version
                            && record.foreground == item.logical.GatewayDeployment?)
  }

  /** This very object is not there, and never will be again. */
  ghost predicate Vanished(objects: map<Key, Obj>, item: Created) {
    Target(item.logical) in objects ==> objects[Target(item.logical)].uid != item.uid
  }

  /** Its deletion was requested by this rollback. */
  ghost predicate Asked(trace: seq<Event>, from: nat, item: Created) {
    exists p :: from <= p < |trace| && trace[p].DeleteSent? && trace[p].key == Target(item.logical) && trace[p].uid == item.uid
  }

  lemma StillAsked(trace: seq<Event>, more: seq<Event>, from: nat, item: Created)
    requires trace <= more && Asked(trace, from, item)
    ensures Asked(more, from, item)
  {
    var p :| from <= p < |trace| && trace[p].DeleteSent? && trace[p].key == Target(item.logical) && trace[p].uid == item.uid;
    assert more[p] == trace[p];
  }

  /** The record is true of the object. */
  ghost predicate Tells(record: Record, item: Created, objects: map<Key, Obj>, trace: seq<Event>, from: nat) {
    && Fits(record, item) && Vanished(objects, item)
    && (record.Deleted? ==> Asked(trace, from, item))
  }

  ghost predicate IsTrue(record: Record, created: seq<Created>, objects: map<Key, Obj>, trace: seq<Event>, from: nat) {
    exists item <- created :: Tells(record, item, objects, trace, from)
  }

  /** Every record is true of an own object, and only the first record of a name may
      say that the object was deleted. */
  ghost predicate Booked(created: seq<Created>, records: seq<Record>, objects: map<Key, Obj>, trace: seq<Event>, from: nat) {
    && (forall i :: 0 <= i < |records| ==> IsTrue(records[i], created, objects, trace, from))
    && (forall i, j :: 0 <= i < j < |records| && records[i].logical == records[j].logical ==> records[j].AlreadyAbsent?)
  }

  /** Whatever deletion was requested has a record that says so. */
  ghost predicate Told(created: seq<Created>, records: seq<Record>, trace: seq<Event>, from: nat) {
    forall item <- created :: Asked(trace, from, item) ==>
      exists record <- records :: record.Deleted? && record.logical == item.logical
  }

  /** What was not there at the beginning is not there, and its deletion is not requested. */
  ghost predicate AllMissing(missing: set<Created>, objects: map<Key, Obj>, trace: seq<Event>, from: nat) {
    forall item <- missing :: Vanished(objects, item) && !Asked(trace, from, item)
  }

  /** Nothing disappears on its own: an object that was there at the beginning is there,
      or somebody else has removed it, or its deletion was requested. */
  ghost predicate Accounted(item: Created, objects: map<Key, Obj>, foreign: seq<Foreign>, since: nat, trace: seq<Event>, from: nat) {
    !Vanished(objects, item) || Taken(foreign, since, Target(item.logical), item.uid) || Asked(trace, from, item)
  }

  ghost predicate AllAccounted(standing: set<Created>, created: seq<Created>, objects: map<Key, Obj>,
                               foreign: seq<Foreign>, since: nat, trace: seq<Event>, from: nat) {
    since <= |foreign| && forall item <- standing :: item in created && Accounted(item, objects, foreign, since, trace, from)
  }

  function Logicals(records: seq<Record>): seq<Logical> {
    seq(|records|, i requires 0 <= i < |records| => records[i].logical)
  }

  /** Neither exposure nor the Deployment: what goes last. */
  predicate Quietly(l: Logical) {
    !l.GatewayIngress? && !l.GatewayService? && !l.GatewayDeployment?
  }

  /** The remaining names, in reverse order of their creation. */
  function Reversed(created: seq<Created>): seq<Logical> {
    if created == [] then []
    else Reversed(created[1..]) + if Quietly(created[0].logical) then [created[0].logical] else []
  }

  /** The records so far, and then those for all but the first `i` objects. */
  function Trail(records: seq<Logical>, created: seq<Created>, i: nat): seq<Logical>
    requires i <= |created|
  {
    records + Reversed(created[i..])
  }

  lemma TrailEnds(records: seq<Logical>, created: seq<Created>)
    ensures Trail(records, created, |created|) == records
    ensures Trail(records, created, 0) == records + Reversed(created)
  {
    assert created[0..] == created && created[|created|..] == [];
  }

  lemma TrailStep(records: seq<Logical>, created: seq<Created>, i: nat)
    requires i < |created|
    ensures Trail(records, created, i) ==
            Trail(records, created, i + 1) + if Quietly(created[i].logical) then [created[i].logical] else []
  {
    assert created[i..][1..] == created[i + 1..];
  }

  function Once(created: seq<Created>, l: Logical): seq<Logical> {
    if Has(created, l) then [l] else []
  }

  /** The names in the order in which a complete rollback goes through them. */
  function DeletionOrder(c: Case): seq<Logical> {
    Once(c.created, GatewayIngress)
    + Once(c.created, GatewayService)
    + (if c.bootstrap.Some? then Once(c.created, GatewayService) else [])
    + Once(c.created, GatewayDeployment)
    + Reversed(c.created)
  }

  // ------------------------------------------------------------------ the run

  /** A fact established by the reads between two numbers. */
  datatype Claim = Sighted(lo: nat, hi: nat, fact: Fact) | Quieted(lo: nat, hi: nat, quiet: nat)

  ghost predicate Holds(s: seq<Sighting>, stamps: seq<Stamp>, deadline: nat, claim: Claim) {
    && claim.lo <= claim.hi <= |s|
    && (claim.Sighted? ==> Saw(s, claim.lo, claim.hi, claim.fact))
    && (claim.Quieted? ==> WasQuiet(s, stamps, claim.lo, claim.hi, claim.quiet, deadline))
  }

  lemma HoldsMore(s: seq<Sighting>, more: seq<Sighting>, stamps: seq<Stamp>, later: seq<Stamp>, deadline: nat, claim: Claim)
    requires s <= more && stamps <= later && Holds(s, stamps, deadline, claim)
    ensures Holds(more, later, deadline, claim)
  {
    match claim
    case Sighted(lo, hi, fact) => SawMore(s, more, lo, hi, hi, fact);
    case Quieted(lo, hi, quiet) => WasQuietMore(s, more, stamps, later, lo, hi, quiet, deadline);
  }

  /** What has vanished stays so, and the records stay true. */
  lemma StillBooked(created: seq<Created>, records: seq<Record>, before: map<Key, Obj>, m: nat, after: map<Key, Obj>, n: nat,
                    trace: seq<Event>, more: seq<Event>, from: nat)
    requires Booked(created, records, before, trace, from) && trace <= more && Persisted(before, m, after, n)
    requires forall item <- created :: item.uid < m
    ensures Booked(created, records, after, more, from)
  {
    forall i | 0 <= i < |records|
      ensures IsTrue(records[i], created, after, more, from)
    {
      assert IsTrue(records[i], created, before, trace, from);
      var item :| item in created && Tells(records[i], item, before, trace, from);
      if records[i].Deleted? {
        StillAsked(trace, more, from, item);
      }
      assert Tells(records[i], item, after, more, from);
    }
  }

  lemma StillMissing(missing: set<Created>, before: map<Key, Obj>, m: nat, after: map<Key, Obj>, n: nat,
                     trace: seq<Event>, e: Event, from: nat)
    requires AllMissing(missing, before, trace, from) && Persisted(before, m, after, n) && forall item <- missing :: item.uid < m
    requires e.DeleteSent? ==> forall item <- missing :: item.uid != e.uid || Target(item.logical) != e.key
    ensures AllMissing(missing, after, trace, from) && AllMissing(missing, after, trace + [e], from)
  {
    assert forall p :: 0 <= p < |trace| ==> (trace + [e])[p] == trace[p];
  }

  /** Of every object, by others or by us: whoever is missing was taken, or asked for. */
  lemma StillAccounted(standing: set<Created>, created: seq<Created>, before: map<Key, Obj>, after: map<Key, Obj>,
                       few: seq<Foreign>, many: seq<Foreign>, since: nat, trace: seq<Event>, more: seq<Event>, from: nat, except: set<Key>)
    requires AllAccounted(standing, created, before, few, since, trace, from) && trace <= more && few <= many
    requires NoneLost(before - except, after, many, |few|)
    requires forall item <- standing :: Target(item.logical) in except ==>
               Asked(more, from, item) || Vanished(before, item)
    ensures AllAccounted(standing, created, after, many, since, more, from)
  {
    forall item | item in standing
      ensures Accounted(item, after, many, since, more, from)
    {
      var key := Target(item.logical);
      assert Accounted(item, before, few, since, trace, from);
      StillTaken(few, many, since, since, key, item.uid);
      StillTaken(many, many, since, |few|, key, item.uid);
      if Asked(trace, from, item) {
        StillAsked(trace, more, from, item);
      } else if !Vanished(before, item) && key !in except {
        assert key in before - except;
      }
    }
  }

  class Rollback {
    const world: World
    const c: Case
    ghost const before: seq<Event>    // the requests sent before this rollback
    ghost const from: nat
    ghost const lo: nat               // the reads made before it
    ghost const madeBefore: map<nat, Post>
    ghost var inflightBefore: set<Post>     // the creates that were still on their way
    ghost const repliesBefore: map<nat, Reply>
    ghost const standing: set<Created>  // what was there at the beginning, or was taken since step `since`
    ghost const since: nat
    ghost const missing: set<Created>   // what was not there at the beginning
    ghost var stamps: seq<Stamp>      // when each read was made; the earlier ones count as made at 0
    var clock: nat
    const deadline: nat
    var errors: nat
    var deleted: seq<Record>
    var bothSuspended: bool
    ghost var proved: set<Claim>

    ghost predicate Running()
      reads this, world
    {
      && world.Valid() && c.Valid() && from == |before| && before <= world.trace && lo <= |world.sightings|
      && |stamps| == |world.sightings| && Stamped(stamps, clock)
      && (forall u <- madeBefore :: u in world.made && world.made[u] == madeBefore[u])
      && world.inflight <= inflightBefore && world.replies == repliesBefore
      && (forall item <- c.created :: Owned(world, c.nonce, item))
      && AllJustified(c, world.trace, world.seen, world.sightings, from, lo)
      && (forall claim <- proved :: Holds(world.sightings, stamps, deadline, claim))
      && Booked(c.created, deleted, world.objects, world.trace, from)
      && AllAccounted(standing, c.created, world.objects, world.foreign, since, world.trace, from)
      && missing <= (set item | item in c.created) && AllMissing(missing, world.objects, world.trace, from)
    }

    /** No deletion was requested without a record of it. */
    ghost predicate Honest()
      reads `deleted, world`trace
    {
      Told(c.created, deleted, world.trace, from)
    }

    /** The network isolation of the gateway was not dropped by this rollback so far. */
    ghost predicate Shielded()
      reads world
    {
      Isolated(world.trace, from, |world.trace|)
    }

    /** Reading and waiting change nothing but what we know. */
    twostate predicate OnlyLooked()
      reads this, world
    {
      && Running() && world.trace == old(world.trace) && world.ledger == old(world.ledger)
      && old(world.sightings) <= world.sightings
      && errors == old(errors) && deleted == old(deleted) && bothSuspended == old(bothSuspended)
      && old(proved) <= proved && old(clock) <= clock && old(stamps) <= stamps
    }

    twostate lemma Learned()
      requires inflightBefore == old(inflightBefore)
      requires old(Running()) && world.Grew() && old(world.sightings) <= world.sightings && proved == old(proved)
      requires world.inflight <= old(world.inflight) && world.replies == old(world.replies)
      requires NoneLost(old(world.objects), world.objects, world.foreign, |old(world.foreign)|)
      requires world.trace == old(world.trace) && world.seen == old(world.seen) && deleted == old(deleted)
      requires old(stamps) <= stamps && |stamps| == |world.sightings| && Stamped(stamps, clock)
      ensures Running()
    {
      JustifiedMore(c, world.trace, world.seen, old(world.sightings), world.sightings, from, lo);
      forall claim <- proved
        ensures Holds(world.sightings, stamps, deadline, claim)
      {
        HoldsMore(old(world.sightings), world.sightings, old(stamps), stamps, deadline, claim);
      }
      AllStay(world, c.nonce, c.created);
      StillBooked(c.created, deleted, old(world.objects), old(world.nextUid), world.objects, world.nextUid, world.trace, world.trace, from);
      assert old(world.objects) - {} == old(world.objects);
      StillAccounted(standing, c.created, old(world.objects), world.objects, old(world.foreign), world.foreign, since,
                     world.trace, world.trace, from, {});
      StillMissing(missing, old(world.objects), old(world.nextUid), world.objects, world.nextUid, world.trace,
                   SuspendSent(PODS, true), from);
    }

    constructor (world: World, c: Case, clock: nat, ghost standing: set<Created>, ghost since: nat, ghost missing: set<Created>)
      requires world.Valid() && c.Valid() && forall item <- c.created :: Owned(world, c.nonce, item)
      requires since <= |world.foreign|
      requires forall item <- standing :: item in c.created
      requires forall item <- missing :: item in c.created && Vanished(world.objects, item)
      requires forall item <- standing :: !Vanished(world.objects, item) || Taken(world.foreign, since, Target(item.logical), item.uid)
      ensures this.world == world && this.c == c && before == world.trace && lo == |world.sightings| && madeBefore == world.made
      ensures inflightBefore == world.inflight && repliesBefore == world.replies
      ensures this.clock == clock && deadline == clock + c.timing.rollback && this.standing == standing && this.since == since
      ensures this.missing == missing
      ensures Running() && Shielded() && Honest() && errors == 0 && deleted == [] && !bothSuspended && proved == {}
    {
      this.world, this.c, this.clock, this.deadline := world, c, clock, clock + c.timing.rollback;
      this.standing, this.since, this.missing := standing, since, missing;
      before, from, lo, madeBefore := world.trace, |world.trace|, |world.sightings|, world.made;
      inflightBefore, repliesBefore := world.inflight, world.replies;
      errors, deleted, bothSuspended, proved := 0, [], false, {};
      stamps := seq(|world.sightings|, i => Stamp(0, 0));
    }

    method Now() returns (now: nat)
      requires Running()
      modifies `clock
      ensures OnlyLooked() && now == clock
    {
      var passed: nat :| passed >= 0;
      clock := clock + passed;
      now := clock;
    }

    method Sleep(time: nat)
      requires Running()
      modifies `clock
      ensures OnlyLooked() && clock >= old(clock) + time
    {
      clock := clock + time;
    }

    method Check() returns (r: Result<()>)
      requires Running()
      modifies world
      ensures OnlyLooked() && world.sightings == old(world.sightings) && proved == old(proved)
    {
      r := world.Check();
      Learned();
    }

    /** One read. It takes its time. */
    method Get(key: Key) returns (r: Result<Option<Obj>>)
      requires Running()
      modifies world, `proved, `clock, `stamps
      ensures OnlyLooked()
      ensures world.sightings == old(world.sightings) + if r.Ok? then [Sighting(key, r.value, |world.trace|)] else []
      ensures stamps == old(stamps) + if r.Ok? then [Stamp(old(clock), clock)] else []
      ensures r == Ok(None) ==> Sighted(|old(world.sightings)|, |world.sightings|, Missing(key)) in proved
      ensures r.Ok? ==> r.value == if key in world.objects then Some(world.objects[key]) else None
      ensures r.Ok? && r.value.Some? && r.value.value.uid < old(world.nextUid) ==>
                key in old(world.objects) && old(world.objects[key]).uid == r.value.value.uid
      ensures r.Ok? && r.value.Some? && r.value.value.body.suspended ==>
                Sighted(|old(world.sightings)|, |world.sightings|, Suspended(key, r.value.value.uid)) in proved
      ensures r.Ok? && r.value.Some? ==>
                Sighted(|old(world.sightings)|, |world.sightings|, Unchanged(key, r.value.value)) in proved
    {
      r := world.Get(key);
      TakeTime(r.Ok?);
      Learned();
      if r.Ok? {
        ghost var n, hi := |old(world.sightings)|, |world.sightings|;
        assert world.sightings[n] == Sighting(key, r.value, |world.trace|);
        if r.value.None? {
          Claim(Sighted(n, hi, Missing(key)));
        } else {
          if r.value.value.body.suspended {
            Claim(Sighted(n, hi, Suspended(key, r.value.value.uid)));
          }
          Claim(Sighted(n, hi, Unchanged(key, r.value.value)));
        }
      }
    }

    /** An answer takes its time to come, or never comes. */
    method TakeTime(answered: bool)
      requires Stamped(stamps, clock)
      modifies `clock, `stamps
      ensures clock >= old(clock) && Stamped(stamps, clock)
      ensures stamps == old(stamps) + if answered then [Stamp(old(clock), clock)] else []
    {
      var passed: nat :| passed >= 0;
      clock := clock + passed;
      if answered {
        stamps := stamps + [Stamp(old(clock), clock)];
      }
    }

    /** Note down what was established. */
    ghost method Claim(claim: Claim)
      requires Running() && Holds(world.sightings, stamps, deadline, claim)
      modifies `proved
      ensures OnlyLooked() && proved == old(proved) + {claim}
    {
      proved := proved + {claim};
    }

    /** At most one answer came, and it was asked for at once. */
    twostate predicate AtMostOneLook()
      reads this
    {
      stamps == old(stamps) || stamps == old(stamps) + [Stamp(old(clock), clock)]
    }

    method Live(key: Key) returns (r: Result<Obj>)
      requires Running()
      modifies world, `proved, `clock, `stamps
      ensures OnlyLooked() && AtMostOneLook()
      ensures r.Ok? ==> world.sightings == old(world.sightings) + [Sighting(key, Some(r.value), |world.trace|)]
      ensures r.Ok? && r.value.body.suspended ==>
                Sighted(|old(world.sightings)|, |world.sightings|, Suspended(key, r.value.uid)) in proved
      ensures r.Ok? ==> Sighted(|old(world.sightings)|, |world.sightings|, Unchanged(key, r.value)) in proved
    {
      var found :- Get(key);
      r := if found.Some? then Ok(found.value) else Err(Raised);
    }

    method ListIsEmpty(query: Key) returns (r: Result<()>)
      requires Running()
      modifies world, `proved, `clock, `stamps
      ensures OnlyLooked()
      ensures r.Ok? ==> Sighted(|old(world.sightings)|, |world.sightings|, Missing(query)) in proved
    {
      var answer := world.List(query);
      TakeTime(answer.Ok?);
      Learned();
      var found :- answer;
      if found.Some? {
        return Err(Raised);
      }
      ghost var n, hi := |old(world.sightings)|, |world.sightings|;
      assert world.sightings[n] == Sighting(query, None, |world.trace|);
      Claim(Sighted(n, hi, Missing(query)));
      r := Ok(());
    }

    // ---------------------------------------------------------------- deletion

    twostate lemma Sent(new e: Event, new except: set<Key>)
      requires inflightBefore == old(inflightBefore)
      requires old(Running()) && world.Grew() && world.sightings == old(world.sightings) && proved == old(proved)
      requires world.inflight <= old(world.inflight) && world.replies == old(world.replies)
      requires world.trace == old(world.trace) + [e] && world.seen == old(world.seen) + [|world.sightings|]
      requires NoneLost(old(world.objects) - except, world.objects, world.foreign, |old(world.foreign)|)
      requires deleted == old(deleted) && stamps == old(stamps) && clock == old(clock)
      requires Justified(c, e, world.sightings, lo, |world.sightings|)
      requires forall item <- standing :: Target(item.logical) in except ==> Asked(world.trace, from, item) || Vanished(old(world.objects), item)
      requires e.DeleteSent? ==> forall item <- missing :: item.uid != e.uid || Target(item.logical) != e.key
      ensures Running()
      ensures old(Shielded()) ==> Isolated(world.trace, from, |world.trace| - 1)
      ensures old(Shielded()) && !DropsIsolation(e) ==> Shielded()
    {
      AllStay(world, c.nonce, c.created);
      StillBooked(c.created, deleted, old(world.objects), old(world.nextUid), world.objects, world.nextUid, old(world.trace), world.trace, from);
      StillAccounted(standing, c.created, old(world.objects), world.objects, old(world.foreign), world.foreign, since,
                     old(world.trace), world.trace, from, except);
      StillMissing(missing, old(world.objects), old(world.nextUid), world.objects, world.nextUid, old(world.trace), e, from);
    }

    /** The isolation still stands, unless the last request was its own deletion. */
    ghost predicate Guarded(item: Created)
      reads world
    {
      Isolated(world.trace, from, |world.trace| - if item.logical.GatewayNetworkPolicy? then 1 else 0)
    }

    lemma GuardedYet(item: Created)
      requires Shielded()
      ensures Guarded(item)
    {
    }

    /** Only the item itself is at its place. */
    lemma OnlyItself(item: Created, other: Created)
      requires c.Valid() && item in c.created && other in c.created && Target(item.logical) == Target(other.logical)
      ensures item == other
    {
    }

    /** The deletion is justified, and meant for nothing else. */
    lemma MayDelete(item: Created, version: nat)
      requires Running() && item in c.created && item !in missing
      requires JustRead(c, item, version, world.sightings, lo, |world.sightings|)
      requires item.logical.GatewayNetworkPolicy? ==>
                 MayDropIsolation(world.sightings, lo, |world.sightings|, c.bootstrap)
      ensures Justified(c, DeleteSent(Target(item.logical), item.uid, version), world.sightings, lo, |world.sightings|)
      ensures DropsIsolation(DeleteSent(Target(item.logical), item.uid, version)) <==> item.logical.GatewayNetworkPolicy?
      ensures forall other <- standing :: Target(other.logical) == Target(item.logical) ==> other == item
      ensures forall other <- missing :: Target(other.logical) != Target(item.logical)
    {
    }

    /** Send the DELETE for exactly the object that was just read. */
    method SendDelete(item: Created, version: nat) returns (r: Result<()>)
      requires Running() && Shielded() && item in c.created && item !in missing
      requires JustRead(c, item, version, world.sightings, lo, |world.sightings|)
      requires item.logical.GatewayNetworkPolicy? ==>
                 MayDropIsolation(world.sightings, lo, |world.sightings|, c.bootstrap)
      modifies world
      ensures Running() && world.ledger == old(world.ledger) && world.sightings == old(world.sightings)
      ensures world.trace == old(world.trace) + [DeleteSent(Target(item.logical), item.uid, version)]
      ensures Guarded(item)
    {
      MayDelete(item, version);
      hide Target, Kustomization, JustRead, MayDropIsolation, Justified, DropsIsolation, Isolated;
      r := world.Delete(Target(item.logical), item.uid, version);
      assert world.trace[|old(world.trace)|] == DeleteSent(Target(item.logical), item.uid, version);
      assert Asked(world.trace, from, item);
      Sent(DeleteSent(Target(item.logical), item.uid, version), {Target(item.logical)});
    }

    /** Some read from number `since` on has shown the fact. */
    ghost predicate Knows(since: nat, fact: Fact)
      reads `proved
    {
      exists n: nat, hi: nat :: since <= n && Sighted(n, hi, fact) in proved
    }

    lemma Recall(since: nat, fact: Fact)
      requires Running() && Knows(since, fact)
      ensures Saw(world.sightings, since, |world.sightings|, fact)
    {
      var n: nat, hi: nat :| since <= n && Sighted(n, hi, fact) in proved;
      assert Holds(world.sightings, stamps, deadline, Sighted(n, hi, fact));
      SawMore(world.sightings, world.sightings, n, hi, |world.sightings|, fact);
    }

    /** Poll until the object is gone. At most one look begins after the time is up. */
    method AwaitAbsence(item: Created, until: nat) returns (r: Result<()>)
      requires Running() && clock <= until
      modifies world, `proved, `clock, `stamps
      ensures OnlyLooked() && Waited(stamps, |old(stamps)|, until - old(clock))
      ensures r.Ok? ==> Knows(|old(world.sightings)|, Missing(Target(item.logical)))
      ensures r.Ok? ==> Vanished(world.objects, item)
    {
      hide Running, Stamped;
      while true
        invariant OnlyLooked()
        invariant forall k :: |old(stamps)| <= k < |stamps| ==> stamps[k].answered < until
        invariant if |stamps| > |old(stamps)| then stamps[|old(stamps)|].asked == old(clock) else clock == old(clock)
        decreases until as int - clock
      {
        var after :- Get(Target(item.logical));
        if after.None? {
          NowVanished(item);
          return Ok(());
        }
        var foreignFinalizers: bool := *;
        var now := Now();
        if foreignFinalizers || now >= until {
          return Err(Raised);
        }
        Sleep(100);
      }
    }

    /** Requests may have been sent, but the isolation still stands. */
    twostate predicate Proceeded()
      reads this, world
    {
      && Running() && Shielded() && world.ledger == old(world.ledger)
      && old(world.sightings) <= world.sightings && old(proved) <= proved && old(errors) <= errors
    }

    /** Look for an object of ours under its name. */
    method Look(item: Created) returns (r: Result<Option<Obj>>)
      requires Running() && item in c.created
      modifies world, `proved, `clock, `stamps
      ensures OnlyLooked() && AtMostOneLook()
      ensures r == Ok(None) ==> Knows(|old(world.sightings)|, Missing(Target(item.logical))) && Vanished(world.objects, item)
      ensures r.Ok? && r.value.Some? ==> r.value.value.uid == item.uid && r.value.value.version >= item.version
      ensures r.Ok? && r.value.Some? ==> !Vanished(old(world.objects), item) && item !in missing
      ensures r.Ok? ==> world.sightings == old(world.sightings) + [Sighting(Target(item.logical), r.value, |world.trace|)]
    {
      assert Owned(world, c.nonce, item);
      r := Get(Target(item.logical));
      assert Owned(world, c.nonce, item);
      if r.Ok? && r.value.Some? && r.value.value.uid != item.uid {
        r := Err(Raised);
      }
    }

    /** How long a deletion may be waited for: at least a second, else until the deadline. */
    function Allowance(now: nat): (time: nat)
      ensures time >= 1000
    {
      if now + 1000 <= deadline then deadline - now else 1000
    }

    /** At most one request more: the DELETE of this object, in the version in which the
        last answer showed it, fit to be deleted. */
    twostate predicate OneDeletionAtMost(new item: Created)
      reads this, world
    {
      world.trace == old(world.trace) ||
      exists version ::
        && world.trace == old(world.trace) + [DeleteSent(Target(item.logical), item.uid, version)]
        && |old(world.sightings)| < |world.sightings|
        && JustRead(c, item, version, world.sightings, |old(world.sightings)|, |old(world.sightings)| + 1)
    }

    /** Send the DELETE and wait until the object is gone. */
    method DeleteVersion(item: Created, version: nat, budget: nat, ghost earlier: nat, ghost time: nat) returns (r: Result<Record>)
      requires earlier <= |world.sightings| && budget <= time
      requires Running() && Shielded() && item in c.created && item !in missing && version >= item.version
      requires JustRead(c, item, version, world.sightings, lo, |world.sightings|)
      requires item.logical.GatewayNetworkPolicy? ==>
                 MayDropIsolation(world.sightings, lo, |world.sightings|, c.bootstrap)
      modifies world, `proved, `clock, `stamps
      ensures Running() && world.ledger == old(world.ledger) && old(world.sightings) <= world.sightings && old(proved) <= proved
      ensures old(stamps) <= stamps
      ensures world.trace == old(world.trace) + [DeleteSent(Target(item.logical), item.uid, version)]
      ensures Waited(stamps, |old(stamps)|, time)
      ensures Guarded(item)
      ensures r.Ok? ==> Fits(r.value, item) && r.value.Deleted? && Knows(earlier, Missing(Target(item.logical)))
      ensures r.Ok? ==> Vanished(world.objects, item)
    {
      hide Running, Isolated, MayDropIsolation, Target, Vanished, JustRead, Stamped, Waited, Knows;
      var sent := SendDelete(item, version);
      var waited := sent;
      if sent.Ok? {
        var now := Now();
        ghost var n, looked := |stamps|, |world.sightings|;
        waited := AwaitAbsence(item, now + budget);
        WaitLess(stamps, n, budget, time);
        Since(earlier, looked, Missing(Target(item.logical)));
      } else {
        NoWait(stamps, |stamps|, time);
      }
      r := if waited.Ok? then Ok(Deleted(item.logical, item.uid, version, item.logical.GatewayDeployment?)) else Err(waited.fault);
    }

    /** `delete_with_preconditions_v4`: only the own object, only if it is as this run
        left it, and only in the version just read. The wait for its absence is counted
        from the first look after the request; at most one look begins later. */
    method DeleteOwned(item: Created) returns (r: Result<Record>)
      requires Running() && Shielded() && item in c.created
      requires item.logical.GatewayNetworkPolicy? ==>
                 MayDropIsolation(world.sightings, lo, |world.sightings|, c.bootstrap)
      modifies world, `proved, `clock, `stamps
      ensures Running() && world.ledger == old(world.ledger) && old(world.sightings) <= world.sightings && old(proved) <= proved
      ensures OneDeletionAtMost(item) && old(stamps) <= stamps
      ensures Waited(stamps, |old(stamps)| + 1, Allowance(old(clock)))
      ensures Guarded(item)
      ensures r.Ok? ==> Fits(r.value, item) && Knows(|old(world.sightings)|, Missing(Target(item.logical)))
      ensures r.Ok? ==> Vanished(world.objects, item) && (r.value.Deleted? <==> world.trace != old(world.trace))
      ensures r.Ok? && r.value.Deleted? ==> !Vanished(old(world.objects), item)
    {
      GuardedYet(item);
      hide Running, Isolated, Guarded, MayDropIsolation, Target, Knows, Vanished, Stamped, JustRead, Waited, OneDeletionAtMost, Allowance, Fits;
      var budget, found := Inspect(item);
      if found.Ok? && found.value.Some? {
        ghost var read := world.sightings;
        r := DeleteVersion(item, found.value.value, budget, |old(world.sightings)|, Allowance(old(clock)));
        OneDeletion(item, found.value.value, read);
      } else {
        NoDeletion(item);
        NoWait(stamps, |old(stamps)| + 1, Allowance(old(clock)));
        r := if found.Ok? then Ok(AlreadyAbsent(item.logical)) else Err(found.fault);
      }
    }

    /** One look, and whether the object may be deleted, and in which version. */
    method Inspect(item: Created) returns (budget: nat, r: Result<Option<nat>>)
      requires Running() && Shielded() && item in c.created
      requires item.logical.GatewayNetworkPolicy? ==>
                 MayDropIsolation(world.sightings, lo, |world.sightings|, c.bootstrap)
      modifies world, `proved, `clock, `stamps
      ensures OnlyLooked() && |stamps| <= |old(stamps)| + 1 && budget <= Allowance(old(clock))
      ensures r == Ok(None) ==> Knows(|old(world.sightings)|, Missing(Target(item.logical))) && Vanished(world.objects, item)
      ensures r.Ok? && r.value.Some? ==>
                && r.value.value >= item.version && !Vanished(old(world.objects), item) && item !in missing
                && |world.sightings| == |old(world.sightings)| + 1 && |stamps| == |old(stamps)| + 1
                && JustRead(c, item, r.value.value, world.sightings, lo, |world.sightings|)
                && (item.logical.GatewayNetworkPolicy? ==>
                      MayDropIsolation(world.sightings, lo, |world.sightings|, c.bootstrap))
    {
      InBounds();
      hide Running, Isolated, MayDropIsolation, DeletableAs, Target, Knows, Vanished, Stamped;
      var now := Now();
      budget := Allowance(now) / 1000 * 1000;
      var look := Look(item);
      if look.Err? {
        return budget, Err(look.fault);
      }
      InBounds();
      var current := look.value;
      if current.None? {
        return budget, Ok(None);
      } else if !DeletableAs(c, item, current.value) {
        return budget, Err(Raised);
      }
      if item.logical.GatewayNetworkPolicy? {
        MayDropMore(old(world.sightings), world.sightings, lo, |old(world.sightings)|, |world.sightings|, c.bootstrap);
      }
      r := Ok(Some(current.value.version));
    }

    twostate lemma NoDeletion(new item: Created)
      requires world.trace == old(world.trace)
      ensures OneDeletionAtMost(item)
    {
    }

    twostate lemma OneDeletion(new item: Created, new version: nat, new read: seq<Sighting>)
      requires |read| == |old(world.sightings)| + 1 && read <= world.sightings
      requires JustRead(c, item, version, read, lo, |read|)
      requires world.trace == old(world.trace) + [DeleteSent(Target(item.logical), item.uid, version)]
      ensures OneDeletionAtMost(item)
    {
      assert JustRead(c, item, version, world.sightings, |old(world.sightings)|, |old(world.sightings)| + 1);
    }

    lemma NowVanished(item: Created)
      requires Target(item.logical) !in world.objects
      ensures Vanished(world.objects, item)
    {
    }

    lemma StillIsolated()
      requires Running() && Shielded()
      ensures Isolated(world.trace, from, |world.trace| - 1)
    {
    }

    lemma Since(earlier: nat, later: nat, fact: Fact)
      requires earlier <= later
      ensures Knows(later, fact) ==> Knows(earlier, fact)
    {
    }

    /** Delete and keep the record. */
    method Remove(item: Created) returns (r: Result<()>)
      requires Running() && Shielded() && item in c.created
      requires item.logical.GatewayNetworkPolicy? ==>
                 MayDropIsolation(world.sightings, lo, |world.sightings|, c.bootstrap)
      modifies world, `proved, `clock, `stamps, `deleted
      ensures Running() && world.ledger == old(world.ledger) && old(world.sightings) <= world.sightings && old(proved) <= proved
      ensures Guarded(item)
      ensures r.Ok? ==> Logicals(deleted) == Logicals(old(deleted)) + [item.logical] && (old(Honest()) ==> Honest())
      ensures r.Ok? ==> Knows(|old(world.sightings)|, Missing(Target(item.logical)))
      ensures r.Err? ==> deleted == old(deleted)
    {
      NoRecordYet(item);
      hide Running, MayDropIsolation, Knows, Isolated, Guarded, Told, Vanished, Asked, OneDeletionAtMost, Waited, Target, Fits, Logicals;
      var done := DeleteOwned(item);
      if done.Ok? {
        NowAsked(item);
        Enter(done.value, item);
        StillTold(item, done.value);
      }
      r := if done.Ok? then Ok(()) else Err(done.fault);
    }

    twostate lemma NowAsked(new item: Created)
      requires from <= |old(world.trace)| && OneDeletionAtMost(item)
      ensures world.trace != old(world.trace) ==> Asked(world.trace, from, item)
    {
      if world.trace != old(world.trace) {
        assert world.trace[|old(world.trace)|].DeleteSent?;
      }
    }

    /** While an object is there, there is no record of it. */
    lemma NoRecordYet(item: Created)
      requires Running() && item in c.created
      ensures from <= |world.trace|
      ensures !Vanished(world.objects, item) ==> forall record <- deleted :: record.logical != item.logical
    {
      forall i | 0 <= i < |deleted| && deleted[i].logical == item.logical
        ensures Vanished(world.objects, item)
      {
        assert IsTrue(deleted[i], c.created, world.objects, world.trace, from);
        assert IsTrue(deleted[i], c.created, world.objects, world.trace, from);
      var other :| other in c.created && Tells(deleted[i], other, world.objects, world.trace, from);
        OnlyItself(item, other);
      }
    }

    method Enter(record: Record, item: Created)
      requires Running() && item in c.created && Fits(record, item) && Vanished(world.objects, item)
      requires record.Deleted? ==> Asked(world.trace, from, item) && forall r <- deleted :: r.logical != item.logical
      modifies `deleted
      ensures Running() && deleted == old(deleted) + [record] && Logicals(deleted) == Logicals(old(deleted)) + [item.logical]
    {
      assert Tells(record, item, world.objects, world.trace, from);
      deleted := deleted + [record];
    }

    /** The one new deletion, if there is one, has its record. */
    twostate lemma StillTold(new item: Created, new record: Record)
      requires c.Valid() && item in c.created && Fits(record, item) && deleted == old(deleted) + [record]
      requires OneDeletionAtMost(item) && (record.Deleted? <==> world.trace != old(world.trace))
      ensures old(Honest()) ==> Honest()
    {
      if old(Honest()) {
        forall other | other in c.created && Asked(world.trace, from, other)
          ensures exists r <- deleted :: r.Deleted? && r.logical == other.logical
        {
          var p :| from <= p < |world.trace| && world.trace[p].DeleteSent? && world.trace[p].key == Target(other.logical)
                   && world.trace[p].uid == other.uid;
          if p < |old(world.trace)| {
            assert old(world.trace)[p] == world.trace[p];
            assert Asked(old(world.trace), from, other);
            var r :| r in old(deleted) && r.Deleted? && r.logical == other.logical;
            assert r in deleted;
          } else {
            OnlyItself(item, other);
            assert record in deleted;
          }
        }
      }
    }

    /** `except Exception`: note the error and carry on, unless the process is dead. */
    method Note(r: Result<()>) returns (dead: bool)
      requires Running()
      modifies `errors
      ensures Running() && old(errors) <= errors && (errors == old(errors) && !dead <==> r.Ok?)
      ensures dead <==> r == Err(Died)
      ensures errors == old(errors) + if r == Err(Raised) then 1 else 0
    {
      dead := false;
      match r
      case Ok(_) =>
      case Err(Raised) => errors := errors + 1;
      case Err(Died) => dead := true;
    }

    // ------------------------------------------------------------------- Flux

    /** `cas_flux_v4`, towards suspension */
    method Suspend(owner: Owner, version: nat, uid: nat) returns (r: Result<()>)
      requires Running() && Shielded() && c.bootstrap.Some?
      modifies world
      ensures Proceeded() && world.trace == old(world.trace) + [SuspendSent(Kustomization(owner), true)]
      ensures old(Honest()) ==> Honest()
      ensures r.Ok? ==> Kustomization(owner) in world.objects && world.objects[Kustomization(owner)].uid == uid
                        && world.objects[Kustomization(owner)].body == c.bootstrap.value.Dormant(owner)
    {
      var answer := world.Suspend(Kustomization(owner), version, true);
      assert old(world.objects) - {} == old(world.objects);
      Sent(SuspendSent(Kustomization(owner), true), {});
      AskedBefore(SuspendSent(Kustomization(owner), true));
      var after :- answer;
      r := Require(after.uid == uid && after.body == c.bootstrap.value.Dormant(owner) && after.version > version);
    }

    /** Only deletions are asked for. */
    twostate lemma AskedBefore(new e: Event)
      requires world.trace == old(world.trace) + [e] && !e.DeleteSent? && deleted == old(deleted)
      ensures old(Honest()) ==> Honest()
    {
      forall item | item in c.created && Asked(world.trace, from, item)
        ensures Asked(old(world.trace), from, item)
      {
        var p :| from <= p < |world.trace| && world.trace[p].DeleteSent? && world.trace[p].key == Target(item.logical)
                 && world.trace[p].uid == item.uid;
        assert old(world.trace)[p] == world.trace[p];
      }
    }

    method SuspendOne(owner: Owner) returns (r: Result<()>)
      requires Running() && Shielded() && c.bootstrap.Some?
      modifies world, `proved, `clock, `stamps
      ensures Proceeded() && (old(Honest()) ==> Honest())
      ensures world.trace == old(world.trace) || world.trace == old(world.trace) + [SuspendSent(Kustomization(owner), true)]
      ensures r.Ok? && world.trace == old(world.trace) ==>
                Knows(|old(world.sightings)|, Suspended(Kustomization(owner), c.bootstrap.value.At(owner).uid))
    {
      var live :- Live(Kustomization(owner));
      var _ :- Require(live.uid == c.bootstrap.value.At(owner).uid);
      if live.body.suspended {
        return Ok(());
      }
      r := Suspend(owner, live.version, live.uid);
    }

    /** A look that begins before the deadline. */
    method LiveInTime(key: Key) returns (r: Result<Obj>)
      requires Running()
      modifies world, `proved, `clock, `stamps
      ensures OnlyLooked() && InTime(stamps, deadline, |old(stamps)|, 1) && (r.Ok? ==> old(clock) < deadline)
      ensures r.Ok? && r.value.body.suspended ==>
                Sighted(|old(world.sightings)|, |world.sightings|, Suspended(key, r.value.uid)) in proved
    {
      hide Running, Stamped;
      var now := Now();
      var _ :- Require(now < deadline);
      r := Live(key);
      assert |stamps| > |old(stamps)| ==> stamps[|stamps| - 1].asked == now;
    }

    /** Poll until the Kustomization is suspended and has nothing in flight. The last look
        begins before the deadline. */
    method AwaitSuspended(owner: Owner) returns (r: Result<()>)
      requires Running() && c.bootstrap.Some?
      modifies world, `proved, `clock, `stamps
      ensures OnlyLooked() && InTime(stamps, deadline, |old(stamps)|, 1)
      ensures r.Ok? ==> Knows(|old(world.sightings)|, Suspended(Kustomization(owner), c.bootstrap.value.At(owner).uid))
    {
      assert c.timing.poll > 0 && c.bootstrap.value.Valid();
      hide Running, Case.Valid, Kustomization, Isolated, Stamped;
      assert InTime(stamps, deadline, |stamps|, 1);
      hide InTime;
      while true
        invariant OnlyLooked() && InTime(stamps, deadline, |old(stamps)|, 1)
        decreases deadline as int - clock
      {
        ghost var before := stamps;
        var answer := LiveInTime(Kustomization(owner));
        StillInTime(before, stamps, deadline, |old(stamps)|, 1);
        var live :- answer;
        var _ :- Require(live.body == c.bootstrap.value.Dormant(owner) && live.uid == c.bootstrap.value.At(owner).uid);
        var quiescent: bool := *;
        if quiescent {
          return Ok(());
        }
        Sleep(c.timing.poll);
      }
    }

    /** The stricter profile: after the quiet interval the Kustomization is still exactly
        the suspended object that was bound. */
    method Recheck(owner: Owner) returns (r: Result<()>)
      requires Running() && c.bootstrap.Some?
      modifies world, `proved, `clock, `stamps
      ensures OnlyLooked()
      ensures r.Ok? ==> Knows(|old(world.sightings)|, Suspended(Kustomization(owner), c.bootstrap.value.At(owner).uid))
    {
      var live :- Live(Kustomization(owner));
      r := Require(live == c.bootstrap.value.At(owner) && live.body.suspended);
    }

    /** `wait_both_suspended_v4` */
    method AwaitBothSuspended() returns (r: Result<()>)
      requires Running() && c.bootstrap.Some?
      modifies world, `proved, `clock, `stamps
      ensures OnlyLooked() && (!c.exact ==> InTime(stamps, deadline, |old(stamps)|, 1))
      ensures r.Ok? ==> BothKnownSuspended(|old(world.sightings)|)
    {
      hide Running, Kustomization, Isolated, Stamped;
      if c.exact {
        var now := Now();
        var _ :- Require(now < deadline);
        Sleep(c.timing.quiet);
        var _ :- Recheck(Gateway);
        ghost var middle := |world.sightings|;
        var _ :- Recheck(WorkbenchIngress);
        BothSince(|old(world.sightings)|, |old(world.sightings)|, middle);
      } else {
        var _ :- AwaitSuspended(Gateway);
        ghost var middle := |world.sightings|;
        var _ :- AwaitSuspended(WorkbenchIngress);
        BothSince(|old(world.sightings)|, |old(world.sightings)|, middle);
      }
      r := Ok(());
    }

    ghost predicate BothKnownSuspended(since: nat)
      requires c.bootstrap.Some?
      reads `proved
    {
      && Knows(since, Suspended(Kustomization(Gateway), c.bootstrap.value.gateway.uid))
      && Knows(since, Suspended(Kustomization(WorkbenchIngress), c.bootstrap.value.workbench.uid))
    }

    lemma BothSince(since: nat, first: nat, second: nat)
      requires c.bootstrap.Some? && since <= first && since <= second
      requires Knows(first, Suspended(Kustomization(Gateway), c.bootstrap.value.gateway.uid))
      requires Knows(second, Suspended(Kustomization(WorkbenchIngress), c.bootstrap.value.workbench.uid))
      ensures BothKnownSuspended(since)
    {
    }

    // ------------------------------------------------------------------ phases

    /** Each of the two objects of the exposure that is owned has left a record or an error. */
    twostate predicate BothTried()
      reads `deleted, `errors
    {
      |deleted| - |old(deleted)| + errors - old(errors) == |Once(c.created, GatewayIngress)| + |Once(c.created, GatewayService)|
    }

    /** Close the exposure: the Ingress first, then the Service behind it, whether or
        not the Ingress went: each of the two that is owned leaves a record or an error. */
    method CloseExposure() returns (dead: bool)
      requires Running() && Shielded()
      modifies world, `proved, `clock, `stamps, `deleted, `errors
      ensures Proceeded()
      ensures errors == old(errors) && !dead ==>
                Logicals(deleted) == Logicals(old(deleted)) + Once(c.created, GatewayIngress) + Once(c.created, GatewayService)
      ensures errors == old(errors) && !dead && old(Honest()) ==> Honest()
      ensures !dead ==> BothTried()
    {
      hide Running, Fits, Isolated, MayDropIsolation, Knows, Told;
      var ingress := Find(c.created, GatewayIngress);
      if ingress.Some? {
        var gone := Remove(ingress.value);
        dead := Note(gone);
        if dead {
          return;
        }
      }
      var service := Find(c.created, GatewayService);
      if service.Some? {
        var gone := Remove(service.value);
        dead := Note(gone);
      } else {
        dead := false;
      }
    }

    /** Suspend both reconcilers and wait until nothing is in flight. */
    method SuspendFlux() returns (dead: bool)
      requires Running() && Shielded() && c.bootstrap.Some? && !bothSuspended
      modifies world, `proved, `clock, `stamps, `deleted, `errors, `bothSuspended
      ensures Proceeded() && deleted == old(deleted) && (old(Honest()) ==> Honest())
      ensures bothSuspended && !dead ==> BothKnownSuspended(|old(world.sightings)|)
      ensures errors == old(errors) && !dead ==> bothSuspended
    {
      hide Running, Fits, Isolated, MayDropIsolation, Knows;
      for i := 0 to 2
        invariant Proceeded() && deleted == old(deleted) && !bothSuspended && (old(Honest()) ==> Honest())
      {
        var done := SuspendOne(OWNERS[i]);
        dead := Note(done);
        if dead {
          return;
        }
      }
      ghost var since := |world.sightings|;
      var waited := AwaitBothSuspended();
      dead := Note(waited);
      if waited.Ok? {
        BothSince(|old(world.sightings)|, since, since);
        MarkSuspended();
      }
    }

    method MarkSuspended()
      requires Running() && Shielded()
      modifies `bothSuspended
      ensures Proceeded() && bothSuspended
    {
      bothSuspended := true;
    }

    /** An own Ingress that is still there, or there again, is deleted once more. */
    method RemoveReappeared() returns (r: Result<()>, reappeared: bool)
      requires Running() && Shielded()
      modifies world, `proved, `clock, `stamps, `deleted
      ensures Proceeded()
      ensures reappeared ==> Has(c.created, GatewayIngress) && !Vanished(old(world.objects), Find(c.created, GatewayIngress).value)
      ensures !reappeared ==> deleted == old(deleted) && world.trace == old(world.trace)
    {
      hide Vanished, Running, Isolated, Fits, Knows, MayDropIsolation;
      reappeared := false;
      var ingress := Find(c.created, GatewayIngress);
      if ingress.None? {
        return Ok(()), false;
      }
      var current :- Look(ingress.value);
      if current.None? {
        return Ok(()), false;
      }
      reappeared := true;
      r := Remove(ingress.value);
    }

    /** What has a record has vanished. */
    lemma RecordedIsGone(item: Created)
      requires Running() && item in c.created && item.logical in Logicals(deleted)
      ensures Vanished(world.objects, item)
    {
      var i :| 0 <= i < |deleted| && Logicals(deleted)[i] == item.logical;
      assert IsTrue(deleted[i], c.created, world.objects, world.trace, from);
      var other :| other in c.created && Tells(deleted[i], other, world.objects, world.trace, from);
      OnlyItself(item, other);
    }

    method DependentsAbsent() returns (r: Result<()>)
      requires Running()
      modifies world, `proved, `clock, `stamps
      ensures OnlyLooked()
      ensures r.Ok? ==> Knows(|old(world.sightings)|, Missing(PODS)) && Knows(|old(world.sightings)|, Missing(REPLICA_SETS))
    {
      var _ :- ListIsEmpty(PODS);
      r := ListIsEmpty(REPLICA_SETS);
    }

    ghost predicate RuntimeKnownGone(since: nat)
      reads `proved
    {
      Knows(since, Missing(Target(GatewayDeployment))) && Knows(since, Missing(PODS)) && Knows(since, Missing(REPLICA_SETS))
    }

    /** Without a bound Deployment, prove that there is none, and nothing of one. */
    method ProveUnboundDeploymentGone() returns (r: Result<()>)
      requires Running()
      modifies world, `proved, `clock, `stamps
      ensures OnlyLooked()
      ensures r.Ok? ==> c.rendered && RuntimeKnownGone(|old(world.sightings)|)
    {
      var _ :- Require(c.rendered);
      var current :- Get(Target(GatewayDeployment));
      var _ :- Require(current.None?);
      r := DependentsAbsent();
    }

    /** Both Kustomizations were seen suspended before read number `m`. */
    ghost predicate FluxClaimed(m: nat)
      reads `proved
    {
      c.bootstrap.Some? ==>
        && Sighted(lo, m, Suspended(Kustomization(Gateway), c.bootstrap.value.gateway.uid)) in proved
        && Sighted(lo, m, Suspended(Kustomization(WorkbenchIngress), c.bootstrap.value.workbench.uid)) in proved
    }

    ghost method ClaimFlux(since: nat)
      requires Running() && lo <= since && c.bootstrap.Some? && BothKnownSuspended(since)
      modifies `proved
      ensures OnlyLooked() && FluxClaimed(|world.sightings|)
    {
      ghost var m := |world.sightings|;
      Recall(since, Suspended(Kustomization(Gateway), c.bootstrap.value.gateway.uid));
      Recall(since, Suspended(Kustomization(WorkbenchIngress), c.bootstrap.value.workbench.uid));
      Claim(Sighted(lo, m, Suspended(Kustomization(Gateway), c.bootstrap.value.gateway.uid)));
      Claim(Sighted(lo, m, Suspended(Kustomization(WorkbenchIngress), c.bootstrap.value.workbench.uid)));
    }

    lemma DropProof(m: nat)
      requires Running() && lo <= m <= |world.sightings| && FluxClaimed(m) && RuntimeKnownGone(m)
      ensures MayDropIsolation(world.sightings, lo, |world.sightings|, c.bootstrap)
    {
      if c.bootstrap.Some? {
        assert Holds(world.sightings, stamps, deadline, Sighted(lo, m, Suspended(Kustomization(Gateway), c.bootstrap.value.gateway.uid)));
        assert Holds(world.sightings, stamps, deadline, Sighted(lo, m, Suspended(Kustomization(WorkbenchIngress), c.bootstrap.value.workbench.uid)));
      }
      Recall(m, Missing(Target(GatewayDeployment)));
      Recall(m, Missing(PODS));
      Recall(m, Missing(REPLICA_SETS));
      assert SawRuntimeGone(world.sightings, m, |world.sightings|);
    }

    /** Delete the Deployment and wait for what it left running to be gone. */
    method RemoveDeployment(ghost m: nat) returns (r: Result<()>)
      requires Running() && Shielded() && m <= |world.sightings|
      requires !Has(c.created, GatewayDeployment) && Has(c.created, GatewayNetworkPolicy) ==> RuntimeKnownGone(m)
      modifies world, `proved, `clock, `stamps, `deleted
      ensures Proceeded()
      ensures r.Ok? ==> Logicals(deleted) == Logicals(old(deleted)) + Once(c.created, GatewayDeployment)
      ensures r.Ok? && old(Honest()) ==> Honest()
      ensures r.Ok? && Has(c.created, GatewayNetworkPolicy) ==> RuntimeKnownGone(m)
    {
      hide Running, Isolated, MayDropIsolation, Fits, Told;
      var deployment := Find(c.created, GatewayDeployment);
      if deployment.None? {
        return Ok(());
      }
      var _ :- Remove(deployment.value);
      r := DependentsAbsent();
    }

    /** If there is an own isolation, it may be dropped. */
    ghost predicate Released()
      reads world
    {
      Has(c.created, GatewayNetworkPolicy) ==> MayDropIsolation(world.sightings, lo, |world.sightings|, c.bootstrap)
    }

    twostate lemma StillReleased()
      requires lo <= |old(world.sightings)| && old(world.sightings) <= world.sightings
      ensures old(Released()) ==> Released()
    {
      if old(Released()) && Has(c.created, GatewayNetworkPolicy) {
        MayDropMore(old(world.sightings), world.sightings, lo, |old(world.sightings)|, |world.sightings|, c.bootstrap);
      }
    }

    /** Object number `i`, unless it was dealt with before. */
    method RemoveAt(i: nat) returns (r: Result<()>)
      requires Running() && Shielded() && Released() && i < |c.created|
      modifies world, `proved, `clock, `stamps, `deleted
      ensures Running() && world.ledger == old(world.ledger) && old(world.sightings) <= world.sightings && old(proved) <= proved
      ensures (i > 0 ==> Shielded()) && Isolated(world.trace, from, |world.trace| - 1) && Released()
      ensures r.Ok? && old(Honest()) ==> Honest()
      ensures r.Ok? ==> Logicals(deleted) == Logicals(old(deleted)) + if Quietly(c.created[i].logical) then [c.created[i].logical] else []
    {
      StillIsolated();
      InBounds();
      assert i > 0 ==> !c.created[i].logical.GatewayNetworkPolicy?;
      Present(c.created[i]);
      r := Ok(());
      if Quietly(c.created[i].logical) {
        hide Running, Isolated, MayDropIsolation, Fits, Logicals, Told, Knows, Has, Quietly;
        r := Remove(c.created[i]);
      }
      StillReleased();
    }

    /** Everything else in reverse order of creation, so that the isolation, which came
        first, goes last. */
    method RemoveRest(ghost m: nat) returns (r: Result<()>)
      requires Running() && Shielded() && lo <= m <= |world.sightings| && FluxClaimed(m)
      requires Has(c.created, GatewayNetworkPolicy) ==> RuntimeKnownGone(m)
      modifies world, `proved, `clock, `stamps, `deleted
      ensures Running() && world.ledger == old(world.ledger) && old(world.sightings) <= world.sightings && old(proved) <= proved
      ensures Isolated(world.trace, from, |world.trace| - 1)
      ensures r.Ok? ==> Logicals(deleted) == Logicals(old(deleted)) + Reversed(c.created) && (old(Honest()) ==> Honest())
    {
      StillIsolated();
      if Has(c.created, GatewayNetworkPolicy) {
        DropProof(m);
      }
      TrailEnds(Logicals(old(deleted)), c.created);
      hide Running, Isolated, MayDropIsolation, Fits, Logicals, Reversed, Trail, Told, Knows, FluxClaimed, RuntimeKnownGone, Released, Quietly;
      r := Ok(());
      for i := |c.created| downto 0
        invariant r.Ok? && Running() && world.ledger == old(world.ledger) && old(world.sightings) <= world.sightings && old(proved) <= proved
        invariant (i > 0 ==> Shielded()) && Isolated(world.trace, from, |world.trace| - 1) && Released()
        invariant Logicals(deleted) == Trail(Logicals(old(deleted)), c.created, i) && (old(Honest()) ==> Honest())
      {
        TrailStep(Logicals(old(deleted)), c.created, i);
        r := RemoveAt(i);
        if r.Err? {
          return;
        }
      }
    }

    lemma Present(item: Created)
      requires item in c.created
      ensures Has(c.created, item.logical)
    {
    }

    // ------------------------------------------------------------- final proofs

    /** One look at all six names. Under a name there may be nothing, or an own object
        that is still going away. */
    method LookAtAllNames() returns (r: Result<bool>)
      requires Running()
      modifies world, `proved, `clock, `stamps
      ensures OnlyLooked() && Began(|old(stamps)|, old(clock)) && |stamps| <= |old(stamps)| + 6
      ensures r == Ok(true) ==> |world.sightings| == |old(world.sightings)| + 6 == |stamps|
                                && ClearRound(world.sightings, |old(world.sightings)|)
    {
      InBounds();
      hide Running, Stamped;
      var clear := true;
      for i := 0 to 6
        invariant OnlyLooked() && Began(|old(stamps)|, old(clock)) && |stamps| <= |old(stamps)| + i
        invariant |stamps| == |old(stamps)| ==> clock == old(clock)
        invariant clear ==> |world.sightings| == |old(world.sightings)| + i
        invariant clear ==> forall k :: 0 <= k < i ==> Shows(world.sightings[|old(world.sightings)| + k], Missing(Target(NAMES[k])))
      {
        var current :- Get(Target(NAMES[i]));
        if current.Some? {
          var item := Find(c.created, NAMES[i]);
          var _ :- Require(item.Some? && item.value.uid == current.value.uid);
          clear := false;
        }
      }
      r := Ok(clear);
    }

    /** The first read from number `n` on was asked for at this time. */
    ghost predicate Began(n: nat, time: nat)
      reads `stamps
    {
      |stamps| > n ==> stamps[n].asked == time
    }

    /** One round of looks that begins before the deadline, and when it began. */
    method LookInTime() returns (r: Result<bool>, now: nat)
      requires Running()
      modifies world, `proved, `clock, `stamps
      ensures OnlyLooked() && InTime(stamps, deadline, |old(stamps)|, 6) && old(clock) <= now
      ensures r.Ok? ==> now < deadline
      ensures r == Ok(true) ==> |stamps| == |world.sightings| == |old(world.sightings)| + 6 == |old(stamps)| + 6
                                && ClearRound(world.sightings, |old(world.sightings)|)
                                && stamps[|old(stamps)|].asked == now
    {
      InBounds();
      hide Running, Stamped, ClearRound;
      now := Now();
      if now >= deadline {
        return Err(Raised), now;
      }
      r := LookAtAllNames();
      assert |stamps| > |old(stamps)| ==> stamps[|old(stamps)|].asked < deadline;
    }

    /** The rounds of looks so far: the last `rounds` of them were clear, from read `first`
        on, and the first of these began at the noted time. */
    ghost predicate Tracked(first: nat, rounds: nat, started: Option<nat>)
      reads `stamps, world`sightings
    {
      && Quiet(world.sightings, first, rounds) && (started.Some? <==> rounds > 0)
      && (started.Some? ==> first + 6 * rounds == |world.sightings| == |stamps| && stamps[first].asked == started.value)
    }

    /** One more round. `r` says whether the quiet interval is over. */
    method QuietRound(started: Option<nat>, ghost first: nat, ghost rounds: nat, ghost earliest: nat)
      returns (r: Result<bool>, restarted: Option<nat>, ghost n: nat, ghost m: nat)
      requires Running() && Tracked(first, rounds, started) && earliest <= first && earliest <= |world.sightings|
      modifies world, `proved, `clock, `stamps
      ensures OnlyLooked() && InTime(stamps, deadline, |old(stamps)|, 6) && (r.Ok? ==> old(clock) < deadline)
      ensures r.Ok? ==> Tracked(n, m, restarted) && m <= rounds + 1 && earliest <= n
      ensures r == Ok(true) ==> m >= 2 && Quieted(earliest, |world.sightings|, c.timing.quiet) in proved
    {
      hide Running, ClearRound, Stamped, InTime;
      var clear, now := LookInTime();
      restarted, n, m := None, first, 0;
      if clear.Err? || !clear.value {
        r := clear;
        return;
      }
      if started.None? {
        n, restarted := |old(world.sightings)|, Some(now);
      } else {
        m, restarted := rounds, started;
      }
      OneMoreRound(old(world.sightings), world.sightings, n, m);
      m := m + 1;
      r := Ok(started.Some? && now - started.value >= c.timing.quiet);
      if r.value {
        ClaimQuiet(earliest, n, m);
      }
    }

    /** `_all_targets_absent_quiet_v4`: look again and again until all six names have
        been absent for the quiet interval, or the deadline has passed. The last round
        begins before the deadline. */
    method AllTargetsAbsentQuiet() returns (r: Result<nat>)
      requires Running()
      modifies world, `proved, `clock, `stamps
      ensures OnlyLooked() && InTime(stamps, deadline, |old(stamps)|, 6)
      ensures r.Ok? ==> r.value >= 2
                        && Quieted(|old(world.sightings)|, |world.sightings|, c.timing.quiet) in proved
    {
      InBounds();
      assert c.timing.poll > 0 && InTime(stamps, deadline, |stamps|, 6);
      hide Running, Quiet, Stamped, InTime, Tracked;
      var quietStarted: Option<nat> := None;
      var checks: nat := 0;
      ghost var first: nat, rounds: nat := |world.sightings|, 0;
      NoRound(first);
      while true
        invariant OnlyLooked() && InTime(stamps, deadline, |old(stamps)|, 6)
        invariant rounds <= checks && |old(world.sightings)| <= first && Tracked(first, rounds, quietStarted)
        decreases deadline as int - clock
      {
        ghost var stampsBefore := stamps;
        var over;
        over, quietStarted, first, rounds := QuietRound(quietStarted, first, rounds, |old(world.sightings)|);
        StillInTime(stampsBefore, stamps, deadline, |old(stamps)|, 6);
        checks := checks + 1;
        if over.Err? {
          return Err(over.fault);
        } else if over.value {
          return Ok(checks);
        }
        Sleep(c.timing.poll);
      }
    }

    lemma NoRound(first: nat)
      ensures Tracked(first, 0, None)
    {
    }

    lemma OneMoreRound(before: seq<Sighting>, after: seq<Sighting>, first: nat, rounds: nat)
      requires before <= after && Quiet(before, first, rounds)
      requires first + 6 * rounds == |before| && ClearRound(after, |before|)
      ensures Quiet(after, first, rounds + 1)
    {
      QuietMore(before, after, first, rounds);
    }

    ghost method ClaimQuiet(earliest: nat, first: nat, rounds: nat)
      requires Running() && earliest <= first && first + 6 * rounds <= |world.sightings| && rounds >= 2
      requires Apart(stamps, first, first + 6 * (rounds - 1), c.timing.quiet, deadline) && Quiet(world.sightings, first, rounds)
      modifies `proved
      ensures OnlyLooked() && Quieted(earliest, |world.sightings|, c.timing.quiet) in proved
    {
      assert WasQuiet(world.sightings, stamps, earliest, |world.sightings|, c.timing.quiet, deadline);
      Claim(Quieted(earliest, |world.sightings|, c.timing.quiet));
    }

    ghost predicate PreservedKnown(n: nat, since: nat)
      requires n <= |c.preserved|
      reads `proved
    {
      forall i :: 0 <= i < n ==> Knows(since, Unchanged(c.preserved[i].key, c.preserved[i].obj))
    }

    /** `verify_preservation_v4` */
    method VerifyPreservation() returns (r: Result<()>)
      requires Running()
      modifies world, `proved, `clock, `stamps
      ensures OnlyLooked()
      ensures r.Ok? ==> PreservedKnown(|c.preserved|, |old(world.sightings)|)
    {
      hide Running;
      for i := 0 to |c.preserved|
        invariant OnlyLooked() && PreservedKnown(i, |old(world.sightings)|)
      {
        var live :- Live(c.preserved[i].key);
        var _ :- Require(live == c.preserved[i].obj);
      }
      r := Ok(());
    }

    // ------------------------------------------------------------ the whole run

    /** Suspend Flux, if there is one. Returns the number of reads after which it was
        known to be quiet. */
    method SettleFlux() returns (dead: bool, ghost m: nat)
      requires Running() && Shielded() && !bothSuspended
      modifies world, `proved, `clock, `stamps, `deleted, `errors, `bothSuspended
      ensures Proceeded() && deleted == old(deleted) && lo <= m <= |world.sightings| && (old(Honest()) ==> Honest())
      ensures errors == old(errors) && !dead ==> FluxClaimed(m) && (c.bootstrap.Some? ==> bothSuspended)
      ensures c.bootstrap.None? ==> !bothSuspended
    {
      InBounds();
      hide Running, Isolated, MayDropIsolation, Fits, Knows;
      dead, m := false, |world.sightings|;
      if c.bootstrap.Some? {
        dead := SuspendFlux();
        if bothSuspended && !dead {
          ClaimFlux(|old(world.sightings)|);
        }
        m := |world.sightings|;
      }
    }

    /** Look again at what may have come back before Flux was quiet. When nothing has gone
        wrong, the Ingress is not there: its UID was read absent and never comes back. */
    method RemoveAgain() returns (dead: bool)
      requires Running() && Shielded()
      requires errors == 0 && Has(c.created, GatewayIngress) ==> GatewayIngress in Logicals(deleted)
      modifies world, `proved, `clock, `stamps, `deleted, `errors
      ensures Proceeded()
      ensures errors == 0 && !dead ==>
                Logicals(deleted) == Logicals(old(deleted)) + if c.bootstrap.Some? then Once(c.created, GatewayService) else []
      ensures errors == 0 && !dead && old(Honest()) ==> Honest()
    {
      hide Running, Isolated, MayDropIsolation, Fits, Knows, Told, Vanished, Has, Once;
      dead := false;
      if errors == 0 {
        dead := TryIngressAgain();
        if dead {
          return;
        }
      }
      dead := TryServiceAgain();
    }

    method TryIngressAgain() returns (dead: bool)
      requires Running() && Shielded() && (Has(c.created, GatewayIngress) ==> GatewayIngress in Logicals(deleted))
      modifies world, `proved, `clock, `stamps, `deleted, `errors
      ensures Proceeded() && deleted == old(deleted) && world.trace == old(world.trace)
    {
      if Has(c.created, GatewayIngress) {
        IngressIsGone();
      }
      hide Running, Isolated, MayDropIsolation, Fits, Knows, Told, Vanished;
      var again, _ := RemoveReappeared();
      dead := Note(again);
    }

    method TryServiceAgain() returns (dead: bool)
      requires Running() && Shielded()
      modifies world, `proved, `clock, `stamps, `deleted, `errors
      ensures Proceeded()
      ensures errors == old(errors) && !dead ==>
                Logicals(deleted) == Logicals(old(deleted)) + if c.bootstrap.Some? then Once(c.created, GatewayService) else []
      ensures errors == old(errors) && !dead && old(Honest()) ==> Honest()
    {
      hide Running, Isolated, MayDropIsolation, Fits, Knows, Told;
      dead := false;
      var service := Find(c.created, GatewayService);
      if service.Some? && c.bootstrap.Some? {
        var gone := Remove(service.value);
        dead := Note(gone);
      }
    }

    lemma IngressIsGone()
      requires Running() && Has(c.created, GatewayIngress) && GatewayIngress in Logicals(deleted)
      ensures Vanished(world.objects, Find(c.created, GatewayIngress).value)
    {
      RecordedIsGone(Find(c.created, GatewayIngress).value);
    }

    /** An unbound Deployment may still be on its way: the isolation stays until there
        is proof that there is none. */
    method GuardIsolation(ghost m: nat) returns (dead: bool)
      requires Running() && Shielded() && lo <= m <= |world.sightings|
      modifies world, `proved, `clock, `stamps, `errors
      ensures Proceeded() && deleted == old(deleted) && (old(Honest()) ==> Honest())
      ensures errors == 0 && !dead && !Has(c.created, GatewayDeployment) && Has(c.created, GatewayNetworkPolicy) ==>
                RuntimeKnownGone(m)
    {
      hide Running, Isolated, MayDropIsolation, Fits, Knows, Has;
      dead := false;
      if errors == 0 && Has(c.created, GatewayNetworkPolicy) && !Has(c.created, GatewayDeployment) {
        var proof := ProveUnboundDeploymentGone();
        RuntimeSince(m, |old(world.sightings)|, proof.Ok?);
        dead := Note(proof);
      }
    }

    /** Take down the rest, unless something has gone wrong. */
    method TakeDown(ghost m: nat) returns (dead: bool)
      requires Running() && Shielded() && lo <= m <= |world.sightings|
      requires errors == 0 ==> FluxClaimed(m) && (c.bootstrap.Some? ==> bothSuspended)
      modifies world, `proved, `clock, `stamps, `deleted, `errors
      ensures Running() && world.ledger == old(world.ledger) && old(world.sightings) <= world.sightings && old(errors) <= errors
      ensures Isolated(world.trace, from, |world.trace| - 1)
      ensures errors == 0 && !dead ==>
                Logicals(deleted) == Logicals(old(deleted)) + Once(c.created, GatewayDeployment) + Reversed(c.created)
      ensures errors == 0 && !dead && old(Honest()) ==> Honest()
    {
      StillIsolated();
      hide Running, Isolated, MayDropIsolation, Fits, Knows, RuntimeKnownGone, Has, Once, Logicals, Told;
      dead := GuardIsolation(m);
      StillIsolated();
      if dead || errors > 0 || (c.bootstrap.Some? && !bothSuspended) {
        return;
      }
      var done := RemoveDeploymentAndRest(m);
      dead := Note(done);
    }

    lemma RuntimeSince(m: nat, since: nat, known: bool)
      requires m <= since && (known ==> RuntimeKnownGone(since))
      ensures known ==> RuntimeKnownGone(m)
    {
    }

    method RemoveDeploymentAndRest(ghost m: nat) returns (r: Result<()>)
      requires Running() && Shielded() && lo <= m <= |world.sightings| && FluxClaimed(m)
      requires !Has(c.created, GatewayDeployment) && Has(c.created, GatewayNetworkPolicy) ==> RuntimeKnownGone(m)
      modifies world, `proved, `clock, `stamps, `deleted
      ensures Running() && world.ledger == old(world.ledger) && old(world.sightings) <= world.sightings && old(proved) <= proved
      ensures Isolated(world.trace, from, |world.trace| - 1)
      ensures r.Ok? ==> Logicals(deleted) == Logicals(old(deleted)) + Once(c.created, GatewayDeployment) + Reversed(c.created)
      ensures r.Ok? && old(Honest()) ==> Honest()
    {
      hide Running, MayDropIsolation, Fits, Logicals, Knows, RuntimeKnownGone, Has, Once, Told;
      var done := RemoveDeployment(m);
      StillIsolated();
      var _ :- done;
      r := RemoveRest(m);
    }

    lemma InBounds()
      requires Running()
      ensures lo <= |world.sightings| == |stamps| && c.Valid()
    {
    }

    /** All six names quiet, and then Flux and its source once more. */
    method ProveAbsence() returns (dead: bool, checks: nat)
      requires Running()
      modifies world, `proved, `clock, `stamps, `errors
      ensures Running() && world.trace == old(world.trace) && world.ledger == old(world.ledger) && deleted == old(deleted)
      ensures old(world.sightings) <= world.sightings && old(proved) <= proved && old(errors) <= errors
      ensures errors == 0 && !dead && c.rendered ==>
                checks >= 2 && Quieted(|old(world.sightings)|, |world.sightings|, c.timing.quiet) in proved
    {
      hide Running, Fits;
      dead, checks := false, 0;
      if errors == 0 && c.rendered {
        var quiet := AllTargetsAbsentQuiet();
        if quiet.Ok? {
          checks := quiet.value;
        } else {
          dead := Note(Err(quiet.fault));
        }
      }
    }

    method ProveFluxQuiet() returns (r: Result<()>)
      requires Running() && c.bootstrap.Some?
      modifies world, `proved, `clock, `stamps
      ensures OnlyLooked()
      ensures r.Ok? ==> BothKnownSuspended(|old(world.sightings)|)
    {
      hide Running, Fits;
      var _ :- AwaitBothSuspended();
      r := Check();
    }

    /** Everything that is proved after the quiet interval. */
    method ProveSurroundings() returns (dead: bool)
      requires Running()
      modifies world, `proved, `clock, `stamps, `errors
      ensures Running() && world.trace == old(world.trace) && world.ledger == old(world.ledger) && deleted == old(deleted)
      ensures old(world.sightings) <= world.sightings && old(proved) <= proved && old(errors) <= errors
      ensures errors == 0 && !dead ==> SurroundingsKnown(|old(world.sightings)|)
    {
      hide Running, Fits;
      dead := false;
      if errors == 0 && c.bootstrap.Some? {
        var flux := ProveFluxQuiet();
        dead := Note(flux);
        if dead {
          return;
        }
      }
      ghost var middle := |world.sightings|;
      var preservation := VerifyPreservation();
      PreservedSince(|old(world.sightings)|, middle, preservation.Ok?);
      dead := Note(preservation);
      if dead || !c.rebind {
        return;
      }
      var cluster := Check();
      dead := Note(cluster);
    }

    ghost predicate SurroundingsKnown(since: nat)
      reads `proved
    {
      (c.bootstrap.Some? ==> BothKnownSuspended(since)) && PreservedKnown(|c.preserved|, since)
    }

    lemma PreservedSince(since: nat, later: nat, known: bool)
      requires since <= later && (known ==> PreservedKnown(|c.preserved|, later))
      ensures known ==> PreservedKnown(|c.preserved|, since)
    {
    }

    /** First the exposure, then Flux. */
    method CloseAndSettle() returns (dead: bool, ghost m: nat)
      requires Running() && Shielded() && Honest() && errors == 0 && deleted == [] && !bothSuspended
      modifies world, `proved, `clock, `stamps, `deleted, `errors, `bothSuspended
      ensures Proceeded() && lo <= m <= |world.sightings|
      ensures errors == 0 && !dead ==>
                && Logicals(deleted) == Once(c.created, GatewayIngress) + Once(c.created, GatewayService) && Honest()
                && FluxClaimed(m) && (c.bootstrap.Some? ==> bothSuspended)
    {
      InBounds();
      NoRecords();
      hide Running, Isolated, Fits, FluxClaimed, Logicals, Honest, Shielded, BothTried, Once;
      ghost var order := Once(c.created, GatewayIngress) + Once(c.created, GatewayService);
      dead := CloseExposure();
      m := |world.sightings|;
      assert errors == 0 && !dead ==> Logicals(deleted) == order && Honest() by {
        assert Logicals([]) + Once(c.created, GatewayIngress) + Once(c.created, GatewayService) == order;
      }
      if !dead {
        dead, m := SettleFlux();
      }
    }

    /** Everything that changes the cluster, in order. */
    method Dismantle() returns (dead: bool)
      requires Running() && Shielded() && Honest() && errors == 0 && deleted == [] && !bothSuspended
      modifies world, `proved, `clock, `stamps, `deleted, `errors, `bothSuspended
      ensures Running() && world.ledger == old(world.ledger) && old(world.sightings) <= world.sightings
      ensures Isolated(world.trace, from, |world.trace| - 1)
      ensures errors == 0 && !dead ==>
                Logicals(deleted) == DeletionOrder(c) && (c.bootstrap.Some? ==> bothSuspended) && Honest()
    {
      hide Running, Isolated, Fits, Reversed, Logicals, DeletionOrder, Told;
      ghost var m: nat;
      dead, m := CloseAndSettle();
      StillIsolated();
      if dead {
        return;
      }
      ghost var closed := Logicals(deleted);
      dead := RemoveAgain();
      StillIsolated();
      if dead {
        return;
      }
      ghost var quiet := Logicals(deleted);
      dead := TakeDown(m);
      if errors == 0 && !dead {
        InOrder(closed, quiet, Logicals(deleted));
      }
    }

    lemma NoRecords()
      ensures Logicals([]) == []
    {
    }

    lemma InOrder(closed: seq<Logical>, quiet: seq<Logical>, all: seq<Logical>)
      requires closed == Once(c.created, GatewayIngress) + Once(c.created, GatewayService)
      requires quiet == closed + if c.bootstrap.Some? then Once(c.created, GatewayService) else []
      requires all == quiet + Once(c.created, GatewayDeployment) + Reversed(c.created)
      ensures all == DeletionOrder(c)
    {
    }

    /** What a complete rollback has proved: the names were gone through in the fixed
        order, and every deletion has its record; all six stayed absent for the quiet
        interval; after that Flux was still suspended, and what had to be preserved was
        unchanged. */
    ghost predicate Succeeded(report: Report)
      reads world`sightings, world`trace, `stamps
    {
      && c.uncertain.None? && report.uncertain.None? && report.entryBound
      && Logicals(report.deleted) == DeletionOrder(c) && Told(c.created, report.deleted, world.trace, from)
      && (c.bootstrap.Some? ==> report.bothSuspended)
      && (c.rendered ==> report.checks >= 2)
      && QuietAndWell()
    }

    /** From read number `q` on, Flux was seen suspended and the preserved objects unchanged. */
    ghost predicate SurroundingsSeen(q: nat)
      reads world`sightings
    {
      && (c.bootstrap.Some? ==> SawBothSuspended(world.sightings, q, |world.sightings|, c.bootstrap.value))
      && forall i :: 0 <= i < |c.preserved| ==>
           Saw(world.sightings, q, |world.sightings|, Unchanged(c.preserved[i].key, c.preserved[i].obj))
    }

    lemma Surroundings(q: nat)
      requires Running() && SurroundingsKnown(q)
      ensures SurroundingsSeen(q)
    {
      if c.bootstrap.Some? {
        Recall(q, Suspended(Kustomization(Gateway), c.bootstrap.value.gateway.uid));
        Recall(q, Suspended(Kustomization(WorkbenchIngress), c.bootstrap.value.workbench.uid));
      }
      forall i | 0 <= i < |c.preserved|
        ensures Saw(world.sightings, q, |world.sightings|, Unchanged(c.preserved[i].key, c.preserved[i].obj))
      {
        Recall(q, Unchanged(c.preserved[i].key, c.preserved[i].obj));
      }
    }

    lemma RecallQuiet(since: nat, q: nat)
      requires Running() && lo <= since && Quieted(since, q, c.timing.quiet) in proved
      ensures WasQuiet(world.sightings, stamps, lo, q, c.timing.quiet, deadline)
    {
      assert Holds(world.sightings, stamps, deadline, Quieted(since, q, c.timing.quiet));
    }

    /** After some read, everything was quiet, and the surroundings were as they should be. */
    ghost predicate QuietAndWell()
      reads world`sightings, `stamps
    {
      exists q: nat ::
        && lo <= q <= |world.sightings|
        && (c.rendered ==> WasQuiet(world.sightings, stamps, lo, q, c.timing.quiet, deadline))
        && SurroundingsSeen(q)
    }

    lemma QuietThenSurroundings(since: nat, q: nat)
      requires Running() && lo <= since <= q <= |world.sightings| && SurroundingsKnown(q)
      requires c.rendered ==> Quieted(since, q, c.timing.quiet) in proved
      ensures QuietAndWell()
    {
      Surroundings(q);
      if c.rendered {
        RecallQuiet(since, q);
      }
    }

    /** The proofs at the end. */
    method ProveResult() returns (dead: bool, checks: nat)
      requires Running()
      modifies world, `proved, `clock, `stamps, `errors
      ensures Running() && world.trace == old(world.trace) && world.ledger == old(world.ledger) && deleted == old(deleted)
      ensures old(world.sightings) <= world.sightings && old(errors) <= errors
      ensures errors == 0 && !dead ==> QuietAndWell() && (c.rendered ==> checks >= 2)
    {
      InBounds();
      hide Running, QuietAndWell, SurroundingsKnown;
      ghost var start := |world.sightings|;
      dead, checks := ProveAbsence();
      if dead {
        return;
      }
      ghost var q := |world.sightings|;
      dead := ProveSurroundings();
      if errors == 0 && !dead {
        QuietThenSurroundings(start, q);
      }
    }

    /** The proofs at the end, and the report. */
    method Finish(entryBound: bool) returns (r: Result<Report>)
      requires Running() && (!entryBound ==> errors > 0)
      requires errors == 0 ==> Logicals(deleted) == DeletionOrder(c) && (c.bootstrap.Some? ==> bothSuspended) && Honest()
      modifies world, `proved, `clock, `stamps, `errors
      ensures Running() && world.trace == old(world.trace) && world.ledger == old(world.ledger) && deleted == old(deleted)
      ensures old(world.sightings) <= world.sightings
      ensures r.Err? ==> r.fault == Died
      ensures r.Ok? ==> r.value.deleted == deleted && r.value.entryBound == entryBound
      ensures r.Ok? ==> (r.value.complete <==> errors == 0 && c.uncertain.None?)
      ensures r.Ok? && r.value.complete ==> Succeeded(r.value)
    {
      hide Running, Logicals, DeletionOrder, QuietAndWell, Told;
      var dead, checks := ProveResult();
      if dead {
        return Err(Died);
      }
      r := Ok(Report(errors == 0 && c.uncertain.None?, entryBound, bothSuspended, checks, deleted, c.uncertain));
    }

    /** `rollback_v4`, all of it. It ends with a report unless the process dies. In a
        cluster that is not the one the run began with, it sends nothing; and the report
        says complete only if nothing went wrong anywhere. */
    method Execute() returns (r: Result<Report>)
      requires Running() && Shielded() && Honest() && errors == 0 && deleted == [] && !bothSuspended
      modifies world, `proved, `clock, `stamps, `deleted, `errors, `bothSuspended
      ensures Running() && world.ledger == old(world.ledger) && old(world.sightings) <= world.sightings
      ensures Isolated(world.trace, from, |world.trace| - 1)
      ensures r.Err? ==> r.fault == Died
      ensures r.Ok? ==> r.value.deleted == deleted
      ensures r.Ok? && !r.value.entryBound ==> world.trace == old(world.trace)
      ensures r.Ok? ==> (r.value.complete <==> errors == 0 && c.uncertain.None?)
      ensures r.Ok? && r.value.complete ==> Succeeded(r.value)
    {
      StillIsolated();
      hide Running, Isolated, Fits, Logicals, DeletionOrder, Succeeded, Told;
      var entry: Result<()> := Ok(());
      if c.rebind {
        entry := Check();
      }
      var dead := Note(entry);
      if dead {
        return Err(Died);
      }
      if errors == 0 {
        dead := Dismantle();
        if dead {
          return Err(Died);
        }
      }
      r := Finish(entry.Ok?);
    }

    // ------------------------------------------------------------ what follows

    /** When the network isolation of the gateway is deleted, it is the last request of
        the rollback; and before it, in this order, both Kustomizations were seen
        suspended, and the Deployment, its Pods and its ReplicaSets were seen gone. */
    lemma IsolationGoesLast(p: nat) returns (m: nat)
      requires Running() && Isolated(world.trace, from, |world.trace| - 1)
      requires from <= p < |world.trace| && DropsIsolation(world.trace[p])
      ensures p == |world.trace| - 1
      ensures lo <= m <= world.seen[p] <= |world.sightings|
      ensures c.bootstrap.Some? ==> SawBothSuspended(world.sightings, lo, m, c.bootstrap.value)
      ensures SawRuntimeGone(world.sightings, m, world.seen[p])
    {
      assert Justified(c, world.trace[p], world.sightings, lo, world.seen[p]);
      m :| && lo <= m <= world.seen[p]
           && (c.bootstrap.Some? ==> SawBothSuspended(world.sightings, lo, m, c.bootstrap.value))
           && SawRuntimeGone(world.sightings, m, world.seen[p]);
    }

    /** A rollback deletes only objects that this run's own create requests have made, in
        the version in which they were just read and found fit for deletion, and otherwise
        only suspends. */
    lemma OnlyOwnObjectsAreDeleted(p: nat)
      requires Running() && from <= p < |world.trace|
      ensures world.trace[p].DeleteSent? || (world.trace[p].SuspendSent? && world.trace[p].suspend)
      ensures world.trace[p].DeleteSent? ==>
                && world.trace[p].uid in world.made
                && world.made[world.trace[p].uid].key == world.trace[p].key
                && world.made[world.trace[p].uid].nonce == c.nonce
                && exists item <- c.created :: item.uid == world.trace[p].uid
                     && JustRead(c, item, world.trace[p].version, world.sightings, lo, world.seen[p])
    {
      assert Justified(c, world.trace[p], world.sightings, lo, world.seen[p]);
    }
  }
}
