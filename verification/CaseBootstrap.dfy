/** The create-only bootstrap of the Case runtime: nineteen objects, one durable
    receipt before every request, and recovery from the last durable receipt. */
module CaseBootstrap {
  import opened Wrappers
  import opened ApiServer

  datatype Phase = Isolation | Control | Public | SuspendedFlux

  datatype Item = Item(phase: Phase, target: Key, desired: Body)

  type Plan = seq<Item>

  datatype RecordState = CreateIntent | Created | Conflict

  datatype Record = Record(target: Key, phase: Phase, desired: Digest<Post>,
                           state: RecordState, uid: Option<nat>, version: Option<nat>)

  datatype Status = Reserved | Creating | Stopped | VerifiedSuspended

  datatype Checkpoint = ControlIntent | ControlVerified | PublicIntent | PublicVerified

  datatype Evidence = ControlRestart(podUid: string, before: string, after: string, exitCode: int, restartCount: int)
                    | PublicReady(podUid: string, imageId: string)

  datatype Receipt = Receipt(plan: Digest<Plan>, nonce: nat, status: Status, objects: seq<Record>,
                             checkpoint: Option<Checkpoint>, checks: map<Phase, Evidence>,
                             fluxSuspended: bool, webConnected: bool, caseAdmitted: bool)

  /** The digest of a receipt, as a later transaction cites it. */
  datatype Citation = ReceiptSha(of: Receipt)

  type World = Cluster<Receipt>

  // ---------------------------------------------------------------- the plan

  /** The request for one plan object under a nonce. */
  function DesiredPost(item: Item, nonce: nat): Post {
    Post(item.target, nonce, item.desired)
  }

  function PhaseRank(phase: Phase): nat {
    match phase
    case Isolation => 0
    case Control => 1
    case Public => 2
    case SuspendedFlux => 3
  }

  /** The phases that may directly precede a phase. */
  predicate MayFollow(previous: Phase, next: Phase) {
    match next
    case Isolation => previous.Isolation?
    case Control => previous.Isolation?
    case Public => previous.Control?
    case SuspendedFlux => previous.Public? || previous.SuspendedFlux?
  }

  predicate Runtime(phase: Phase) {
    phase.Control? || phase.Public?
  }

  /** Isolation, then control, then public, then Flux; one Deployment in each of
      the two runtime phases. */
  ghost predicate Phased(plan: Plan) {
    && |plan| == 19 && PhaseRank(plan[18].phase) >= 2
    && (plan[0].phase.Isolation? || plan[0].phase.Control?)
    && (forall i :: 0 < i < |plan| ==> MayFollow(plan[i - 1].phase, plan[i].phase))
  }

  /** The order every plan has; `BuildPlan` establishes it. */
  ghost predicate OrderedPlan(plan: Plan) {
    && Phased(plan)
    && (forall i, j :: 0 <= i < j < |plan| ==> plan[i].target != plan[j].target)
    && (forall i, j :: 0 <= i < j < |plan| ==> PhaseRank(plan[i].phase) <= PhaseRank(plan[j].phase))
    && (forall i :: 0 <= i < |plan| ==> (plan[i].target.kind.DeploymentKind? <==> Runtime(plan[i].phase)))
    && (forall i :: 0 <= i < |plan| && plan[i].target.kind.NetworkPolicyKind? ==> plan[i].phase.Isolation?)
  }

  const CONTROL_NAME := "roebel-case-steward-control"
  const PUBLIC_NAME := "roebel-case-public-binding"

  datatype Resource = Resource(target: Key, desired: Body)

  /** The sort key of the infrastructure; `None` is a kind the table does not list. */
  function KindOrder(kind: Kind): Option<nat> {
    match kind
    case ServiceAccountKind => Some(0)
    case NetworkPolicyKind => Some(1)
    case ConfigMapKind => Some(2)
    case ServiceKind => Some(3)
    case _ => None
  }

  predicate TextAtMost(a: string, b: string) {
    a == [] || (b != [] && (a[0] < b[0] || (a[0] == b[0] && TextAtMost(a[1..], b[1..]))))
  }

  predicate SortsBefore(a: Resource, b: Resource)
    requires KindOrder(a.target.kind).Some? && KindOrder(b.target.kind).Some?
  {
    var x, y := KindOrder(a.target.kind).value, KindOrder(b.target.kind).value;
    x < y || (x == y && TextAtMost(a.target.name, b.target.name))
  }

  predicate Sortable(s: seq<Resource>) {
    forall r <- s :: KindOrder(r.target.kind).Some?
  }

  predicate Sorted(s: seq<Resource>)
    requires Sortable(s)
  {
    forall i :: 0 < i < |s| ==> SortsBefore(s[i - 1], s[i])
  }

  lemma TextTotal(a: string, b: string)
    ensures TextAtMost(a, b) || TextAtMost(b, a)
  {
  }

  /** Put one resource after everything that may precede it. */
  function Insert(s: seq<Resource>, r: Resource): (t: seq<Resource>)
    requires Sortable(s + [r]) && Sorted(s)
    ensures multiset(t) == multiset(s) + multiset{r}
    ensures Sortable(t) && Sorted(t)
    ensures t != [] && (t[|t| - 1] == r || (s != [] && t[|t| - 1] == s[|s| - 1]))
  {
    assert r in s + [r];
    if s == [] || SortsBefore(s[|s| - 1], r) then s + [r]
    else
      var n := |s| - 1;
      TextTotal(s[n].target.name, r.target.name);
      assert s == s[..n] + [s[n]];
      var front := Insert(s[..n], r);
      assert forall x <- front :: x in multiset(front);
      front + [s[n]]
  }

  /** The infrastructure in creation order. */
  function SortedInfrastructure(s: seq<Resource>): (t: seq<Resource>)
    requires Sortable(s)
    ensures multiset(t) == multiset(s) && Sortable(t) && Sorted(t)
  {
    if s == [] then []
    else
      var n := |s| - 1;
      assert s == s[..n] + [s[n]];
      var front := SortedInfrastructure(s[..n]);
      Insert(front, s[n])
  }

  function NonDeployments(s: seq<Resource>): (t: seq<Resource>)
    ensures forall r <- t :: r in s && !r.target.kind.DeploymentKind?
    ensures forall r <- s :: !r.target.kind.DeploymentKind? ==> r in t
  {
    if s == [] then []
    else
      assert s == s[..|s| - 1] + [s[|s| - 1]];
      NonDeployments(s[..|s| - 1]) + if s[|s| - 1].target.kind.DeploymentKind? then [] else [s[|s| - 1]]
  }

  function FirstDeployment(s: seq<Resource>, name: string): (r: Option<Resource>)
    ensures r.Some? ==> r.value in s && r.value.target.kind.DeploymentKind? && r.value.target.name == name
  {
    if s == [] then None
    else if s[0].target.kind.DeploymentKind? && s[0].target.name == name then Some(s[0])
    else FirstDeployment(s[1..], name)
  }

  function InPhase(phase: Phase, s: seq<Resource>): (items: Plan)
    ensures |items| == |s|
    ensures forall i :: 0 <= i < |s| ==> items[i] == Item(phase, s[i].target, s[i].desired)
  {
    seq(|s|, i requires 0 <= i < |s| => Item(phase, s[i].target, s[i].desired))
  }

  function Assemble(infrastructure: seq<Resource>, control: Resource, public: Resource, flux: seq<Resource>): (plan: Plan)
    ensures |plan| == |infrastructure| + 2 + |flux|
  {
    InPhase(Isolation, infrastructure) + InPhase(Control, [control]) + InPhase(Public, [public])
    + InPhase(SuspendedFlux, flux)
  }

  predicate Creatable(kind: Kind) {
    !kind.SecretKind? && !kind.PersistentVolumeKind? && !kind.PersistentVolumeClaimKind?
  }

  /** `build_plan`: isolation first, control before public, suspended Flux last. */
  function BuildPlan(runtime: seq<Resource>, flux: seq<Resource>): (plan: Option<Plan>)
    ensures plan.Some? ==> |plan.value| == 19
    ensures plan.Some? ==> forall item <- plan.value :: Creatable(item.target.kind)
  {
    var infrastructure := NonDeployments(runtime);
    var control := FirstDeployment(runtime, CONTROL_NAME);
    var public := FirstDeployment(runtime, PUBLIC_NAME);
    if !Sortable(infrastructure) || control.None? || public.None? then None
    else
      var plan := Assemble(SortedInfrastructure(infrastructure), control.value, public.value, flux);
      if |plan| == 19 && forall item <- plan :: Creatable(item.target.kind) then Some(plan) else None
  }

  ghost predicate DistinctTargets(s: seq<Resource>) {
    forall i, j :: 0 <= i < j < |s| ==> s[i].target != s[j].target
  }

  /** Targets stay distinct under any reordering. */
  lemma SameMultisetDistinct(s: seq<Resource>, t: seq<Resource>)
    requires multiset(s) == multiset(t) && DistinctTargets(s)
    ensures DistinctTargets(t)
  {
    forall i, j | 0 <= i < j < |t|
      ensures t[i].target != t[j].target
    {
      assert t[i] in multiset(s) && t[j] in multiset(s);
      if t[i] == t[j] {
        assert t == t[..j] + t[j..];
        assert t[i] in t[..j] && t[j] in t[j..];
        assert multiset(t)[t[i]] >= 2;
        SingleInDistinct(s, t[i]);
      }
    }
  }

  lemma SameMultisetMembers(s: seq<Resource>, t: seq<Resource>)
    requires multiset(s) == multiset(t)
    ensures forall r <- s :: r in t
  {
    assert forall r <- s :: r in multiset(s) && (r in multiset(t) <==> r in t);
  }

  lemma SingleInDistinct(s: seq<Resource>, r: Resource)
    requires DistinctTargets(s)
    ensures multiset(s)[r] <= 1
  {
    if s != [] {
      var n := |s| - 1;
      SingleInDistinct(s[..n], r);
      assert s == s[..n] + [s[n]];
      if r == s[n] {
        assert r !in s[..n];
      }
    }
  }

  /** What a plan is made from: the infrastructure, the two Deployments and Flux. */
  function Inventory(runtime: seq<Resource>, flux: seq<Resource>): seq<Resource>
    requires BuildPlan(runtime, flux).Some?
  {
    NonDeployments(runtime)
    + [FirstDeployment(runtime, CONTROL_NAME).value, FirstDeployment(runtime, PUBLIC_NAME).value] + flux
  }

  /** The objects of a plan, without their phases. */
  function Resources(plan: Plan): (s: seq<Resource>)
    ensures |s| == |plan| && forall i :: 0 <= i < |s| ==> s[i] == Resource(plan[i].target, plan[i].desired)
  {
    seq(|plan|, i requires 0 <= i < |plan| => Resource(plan[i].target, plan[i].desired))
  }

  predicate PlainFlux(flux: seq<Resource>) {
    forall r <- flux :: !r.target.kind.DeploymentKind? && !r.target.kind.NetworkPolicyKind?
  }

  lemma AssembledPhases(infrastructure: seq<Resource>, control: Resource, public: Resource, flux: seq<Resource>)
    requires |infrastructure| + 2 + |flux| == 19
    ensures Phased(Assemble(infrastructure, control, public, flux))
    ensures Resources(Assemble(infrastructure, control, public, flux)) == infrastructure + [control, public] + flux
  {
  }

  lemma AssembledIsOrdered(infrastructure: seq<Resource>, control: Resource, public: Resource, flux: seq<Resource>)
    requires |infrastructure| + 2 + |flux| == 19
    requires forall r <- infrastructure :: !r.target.kind.DeploymentKind?
    requires control.target.kind.DeploymentKind? && public.target.kind.DeploymentKind?
    ensures OrderedPlan(Assemble(infrastructure, control, public, flux)) <==>
            DistinctTargets(infrastructure + [control, public] + flux) && PlainFlux(flux)
  {
    var all := infrastructure + [control, public] + flux;
    var plan := Assemble(infrastructure, control, public, flux);
    AssembledPhases(infrastructure, control, public, flux);
    SameTargets(plan, all);
    AssembledAt(infrastructure, control, public, flux);
    KindsAndPhases(infrastructure, control, public, flux, plan);
    hide Assemble, InPhase, Resources, Phased, PlainFlux;
  }

  lemma SameTargets(plan: Plan, all: seq<Resource>)
    requires Resources(plan) == all
    ensures DistinctTargets(all) <==> forall i, j :: 0 <= i < j < |plan| ==> plan[i].target != plan[j].target
  {
    assert forall i :: 0 <= i < |plan| ==> plan[i].target == Resources(plan)[i].target == all[i].target;
  }

  /** Object number `i` of an assembled plan. */
  function Placed(infrastructure: seq<Resource>, control: Resource, public: Resource, flux: seq<Resource>, i: nat): Item
    requires i < |infrastructure| + 2 + |flux|
  {
    var k := |infrastructure|;
    if i < k then Item(Isolation, infrastructure[i].target, infrastructure[i].desired)
    else if i == k then Item(Control, control.target, control.desired)
    else if i == k + 1 then Item(Public, public.target, public.desired)
    else Item(SuspendedFlux, flux[i - k - 2].target, flux[i - k - 2].desired)
  }

  lemma AssembledAt(infrastructure: seq<Resource>, control: Resource, public: Resource, flux: seq<Resource>)
    ensures forall i :: 0 <= i < |infrastructure| + 2 + |flux| ==>
              Assemble(infrastructure, control, public, flux)[i] == Placed(infrastructure, control, public, flux, i)
  {
  }

  lemma KindsAndPhases(infrastructure: seq<Resource>, control: Resource, public: Resource, flux: seq<Resource>, plan: Plan)
    requires |plan| == |infrastructure| + 2 + |flux|
    requires forall i :: 0 <= i < |plan| ==> plan[i] == Placed(infrastructure, control, public, flux, i)
    requires forall r <- infrastructure :: !r.target.kind.DeploymentKind?
    requires control.target.kind.DeploymentKind? && public.target.kind.DeploymentKind?
    ensures forall i, j :: 0 <= i < j < |plan| ==> PhaseRank(plan[i].phase) <= PhaseRank(plan[j].phase)
    ensures PlainFlux(flux) <==>
              && (forall i :: 0 <= i < |plan| ==> (plan[i].target.kind.DeploymentKind? <==> Runtime(plan[i].phase)))
              && (forall i :: 0 <= i < |plan| && plan[i].target.kind.NetworkPolicyKind? ==> plan[i].phase.Isolation?)
  {
    var k := |infrastructure|;
    assert forall i :: 0 <= i < |flux| ==> plan[i + k + 2].target == flux[i].target && plan[i + k + 2].phase.SuspendedFlux?;
  }

  /** Every plan that comes out of `BuildPlan` goes through the phases in order, holds the
      whole inventory and nothing else, and no storage or credential. It has the order that
      the transaction relies on if and only if no two objects of the inventory share a
      target and the Flux objects are neither Deployments nor network policies. */
  lemma BuildPlanIsOrdered(runtime: seq<Resource>, flux: seq<Resource>, plan: Plan)
    requires BuildPlan(runtime, flux) == Some(plan)
    ensures Phased(plan) && forall item <- plan :: Creatable(item.target.kind)
    ensures multiset(Resources(plan)) == multiset(Inventory(runtime, flux))
    ensures OrderedPlan(plan) <==> DistinctTargets(Inventory(runtime, flux)) && PlainFlux(flux)
  {
    hide OrderedPlan, Assemble, DistinctTargets, Sorted, InPhase, PlainFlux, Phased;
    var infrastructure := NonDeployments(runtime);
    var sorted := SortedInfrastructure(infrastructure);
    var control := FirstDeployment(runtime, CONTROL_NAME).value;
    var public := FirstDeployment(runtime, PUBLIC_NAME).value;
    var inventory, listed := infrastructure + [control, public] + flux, sorted + [control, public] + flux;
    assert multiset(listed) == multiset(inventory);
    SameMultisetMembers(sorted, infrastructure);
    AssembledPhases(sorted, control, public, flux);
    AssembledIsOrdered(sorted, control, public, flux);
    if DistinctTargets(inventory) {
      SameMultisetDistinct(inventory, listed);
    } else if DistinctTargets(listed) {
      SameMultisetDistinct(listed, inventory);
    }
  }

  // ------------------------------------------------------------ the receipts

  predicate IdentityText(s: string) {
    0 < |s| <= 512 && forall c <- s :: c >= ' '
  }

  predicate ValidEvidence(phase: Phase, e: Evidence) {
    match e
    case ControlRestart(pod, before, after, exitCode, restartCount) =>
      && phase.Control? && IdentityText(pod) && IdentityText(before) && IdentityText(after)
      && exitCode == 0 && restartCount > 0 && before != after
    case PublicReady(pod, image) =>
      phase.Public? && IdentityText(pod) && IdentityText(image)
  }

  /** Everything recovery demands of one record, given its position. */
  predicate AcceptableRecord(plan: Plan, receipt: Receipt, i: nat)
    requires i < |receipt.objects| <= |plan|
  {
    var r := receipt.objects[i];
    && r.target == plan[i].target && r.phase == plan[i].phase
    && r.desired == Sha(DesiredPost(plan[i], receipt.nonce))
    && match r.state
       case CreateIntent => i == |receipt.objects| - 1 && r.uid.None? && r.version.None?
       case Created => r.uid.Some? && r.version.Some?
       case Conflict => false
  }

  ghost predicate DistinctUids(records: seq<Record>) {
    forall i, j :: 0 <= i < j < |records| && records[i].state.Created? && records[j].state.Created?
      ==> records[i].uid != records[j].uid
  }

  ghost predicate Acceptable(plan: Plan, receipt: Receipt) {
    && receipt.plan == Sha(plan)
    && receipt.fluxSuspended && !receipt.webConnected && !receipt.caseAdmitted
    && (forall p <- receipt.checks :: Runtime(p) && ValidEvidence(p, receipt.checks[p]))
    && |receipt.objects| <= |plan|
    && (forall i :: 0 <= i < |receipt.objects| ==> AcceptableRecord(plan, receipt, i))
    && DistinctUids(receipt.objects)
  }

  /** Validate the exact plan and the ordered ownership prefix before any API use. */
  method BindRecovery(plan: Plan, prior: Sealed<Receipt>) returns (state: Option<Receipt>)
    ensures state.Some? <==> prior.digest == Sha(prior.body) && Acceptable(plan, prior.body)
    ensures state.Some? ==> state.value == prior.body
  {
    var receipt := prior.body;
    if prior.digest != Sha(receipt) || receipt.plan != Sha(plan) || !receipt.fluxSuspended
       || receipt.webConnected || receipt.caseAdmitted
       || !(forall p <- receipt.checks :: Runtime(p) && ValidEvidence(p, receipt.checks[p]))
       || |receipt.objects| > |plan|
    {
      return None;
    }
    var uids := {};
    for i := 0 to |receipt.objects|
      invariant forall j :: 0 <= j < i ==> AcceptableRecord(plan, receipt, j)
      invariant DistinctUids(receipt.objects[..i])
      invariant forall j :: 0 <= j < i && receipt.objects[j].state.Created? ==>
                              receipt.objects[j].uid.Some? && receipt.objects[j].uid.value in uids
      invariant forall u <- uids :: exists j :: 0 <= j < i && receipt.objects[j].state.Created? && receipt.objects[j].uid == Some(u)
    {
      var record := receipt.objects[i];
      if !AcceptableRecord(plan, receipt, i) {
        return None;
      }
      if record.state.Created? {
        if record.uid.value in uids {
          return None;
        }
        uids := uids + {record.uid.value};
      }
    }
    assert receipt.objects[..|receipt.objects|] == receipt.objects;
    state := Some(receipt);
  }

  // --------------------------------------------------------- what runs keep

  /** A record that this transaction's own request can account for. */
  ghost predicate OwnedRecord(item: Item, nonce: nat, record: Record, last: bool, made: map<nat, Post>) {
    && record.target == item.target && record.phase == item.phase
    && record.desired == Sha(DesiredPost(item, nonce))
    && (record.state.Created? ==>
          && record.uid.Some? && record.version.Some? && record.uid.value in made
          && made[record.uid.value].key == item.target && made[record.uid.value].nonce == nonce)
    && (!record.state.Created? ==> last && record.uid.None? && record.version.None?)
  }

  /** The records are an owned prefix of the plan. */
  ghost predicate OwnedPrefix(plan: Plan, nonce: nat, records: seq<Record>, made: map<nat, Post>) {
    && |records| <= |plan|
    && forall i :: 0 <= i < |records| ==> OwnedRecord(plan[i], nonce, records[i], i == |records| - 1, made)
  }

  predicate Complete(plan: Plan, state: Receipt) {
    && |state.objects| == |plan|
    && (forall r <- state.objects :: r.state.Created?)
    && state.checks.Keys == {Control, Public}
  }

  /** The state of a run, in memory or in a receipt. */
  ghost predicate Sound(plan: Plan, state: Receipt, made: map<nat, Post>) {
    && state.plan == Sha(plan)
    && state.fluxSuspended && !state.webConnected && !state.caseAdmitted
    && (forall p <- state.checks :: Runtime(p) && ValidEvidence(p, state.checks[p]))
    && OwnedPrefix(plan, state.nonce, state.objects, made)
    && (state.status.VerifiedSuspended? ==> Complete(plan, state))
  }

  /** What a later state keeps of an earlier one: the owned prefix and its UIDs. */
  ghost predicate Extends(earlier: Receipt, later: Receipt) {
    && earlier.nonce == later.nonce
    && |earlier.objects| <= |later.objects|
    && (forall i :: 0 <= i < |earlier.objects| && earlier.objects[i].state.Created? ==>
          later.objects[i].state.Created? && later.objects[i].uid == earlier.objects[i].uid)
  }

  /** The receipt from which a create may be sent: the object is its last record,
      as an intent; everything before it is owned; the earlier phases are verified. */
  ghost predicate Authorizes(plan: Plan, receipt: Receipt, post: Post) {
    && 0 < |receipt.objects| <= |plan|
    && var i := |receipt.objects| - 1;
    && post == DesiredPost(plan[i], receipt.nonce)
    && receipt.objects[i].state.CreateIntent?
    && (forall j :: 0 <= j < i ==> receipt.objects[j].state.Created?)
    && (plan[i].phase.Public? ==> receipt.checkpoint == Some(ControlVerified) && Control in receipt.checks)
    && (plan[i].phase.SuspendedFlux? ==>
          receipt.checkpoint == Some(PublicVerified) && Control in receipt.checks && Public in receipt.checks)
  }

  /** Every create of this transaction was sent from an authorizing receipt, and
      no two of them from receipts of the same length. */
  ghost predicate WriteAhead(plan: Plan, nonce: nat, trace: seq<Event>, basis: seq<Option<Receipt>>,
                             ledger: seq<Receipt>)
    requires |trace| == |basis|
  {
    && (forall p :: 0 <= p < |trace| && trace[p].PostSent? && trace[p].post.nonce == nonce ==>
          && basis[p].Some? && basis[p].value in ledger && basis[p].value.nonce == nonce
          && Authorizes(plan, basis[p].value, trace[p].post))
    && (forall p, q :: 0 <= p < q < |trace| && trace[p].PostSent? && trace[p].post.nonce == nonce
                       && trace[q].PostSent? && trace[q].post.nonce == nonce ==>
          |basis[p].value.objects| < |basis[q].value.objects|)
  }

  /** The receipts of one transaction: each sound, each extending the one before. */
  ghost predicate Chained(plan: Plan, ledger: seq<Receipt>, made: map<nat, Post>) {
    if ledger == [] then true else
      var n := |ledger| - 1;
      && Chained(plan, ledger[..n], made)
      && Sound(plan, ledger[n], made)
      && (n > 0 ==> Extends(ledger[n - 1], ledger[n]))
  }

  /** The invariant of the transaction between any two steps of any run. */
  ghost predicate Inv(plan: Plan, world: World)
    reads world
  {
    && world.Valid()
    && Chained(plan, world.ledger, world.made)
    && (world.ledger != [] ==>
          WriteAhead(plan, world.ledger[0].nonce, world.trace, world.basis, world.ledger)
          && world.ledger[0].nonce < world.nextNonce)
  }

  lemma ChainedGrows(plan: Plan, ledger: seq<Receipt>, made: map<nat, Post>, made': map<nat, Post>)
    requires forall u <- made :: u in made' && made'[u] == made[u]
    requires Chained(plan, ledger, made)
    ensures Chained(plan, ledger, made')
  {
    if ledger != [] {
      var n := |ledger| - 1;
      ChainedGrows(plan, ledger[..n], made, made');
      SoundGrows(plan, ledger[n], made, made');
    }
  }

  /** The n-th receipt of a chain is sound and every later one extends it. */
  lemma ChainedAt(plan: Plan, ledger: seq<Receipt>, made: map<nat, Post>, i: nat, j: nat)
    requires Chained(plan, ledger, made) && i <= j < |ledger|
    ensures Sound(plan, ledger[i], made) && Sound(plan, ledger[j], made) && Extends(ledger[i], ledger[j])
  {
    var n := |ledger| - 1;
    if j < n {
      ChainedAt(plan, ledger[..n], made, i, j);
    } else if i < n {
      ChainedAt(plan, ledger[..n], made, i, n - 1);
      ExtendsTransitive(ledger[i], ledger[n - 1], ledger[n]);
    }
  }

  lemma SoundGrows(plan: Plan, state: Receipt, made: map<nat, Post>, made': map<nat, Post>)
    requires forall u <- made :: u in made' && made'[u] == made[u]
    requires Sound(plan, state, made)
    ensures Sound(plan, state, made')
  {
  }

  lemma ExtendsTransitive(a: Receipt, b: Receipt, c: Receipt)
    requires Extends(a, b) && Extends(b, c)
    ensures Extends(a, c)
  {
  }

  /** No create under this nonce was sent from a receipt of this length or longer. */
  ghost predicate NothingSentAt(length: nat, nonce: nat, trace: seq<Event>, basis: seq<Option<Receipt>>)
    requires |trace| == |basis|
  {
    forall p :: 0 <= p < |trace| && trace[p].PostSent? && trace[p].post.nonce == nonce && basis[p].Some? ==>
                  |basis[p].value.objects| < length
  }

  /** A create from an authorizing receipt longer than all before keeps the log write-ahead. */
  lemma SendKeepsWriteAhead(plan: Plan, receipt: Receipt, post: Post, trace: seq<Event>,
                            basis: seq<Option<Receipt>>, ledger: seq<Receipt>)
    requires |trace| == |basis| && WriteAhead(plan, receipt.nonce, trace, basis, ledger)
    requires receipt in ledger && Authorizes(plan, receipt, post)
    requires NothingSentAt(|receipt.objects|, receipt.nonce, trace, basis)
    ensures WriteAhead(plan, receipt.nonce, trace + [PostSent(post)], basis + [Some(receipt)], ledger)
  {
  }

  // --------------------------------------------------------------- the runs

  /** `_bound_identity`: the observed object is this transaction's own create. */
  function BoundIdentity(observed: Option<Obj>, desired: Post): (r: Result<Obj>)
    ensures r.Ok? <==> observed.Some? && observed.value.mark == Ours(desired.nonce) && observed.value.body == desired.body
    ensures r.Ok? ==> observed == Some(r.value)
    ensures r.Err? ==> r.fault == Raised
  {
    if observed.Some? && observed.value.mark == Ours(desired.nonce) && observed.value.body == desired.body
    then Ok(observed.value)
    else Err(Raised)
  }

  // ------------------------------------------------- what a run has looked at

  /** After `at` requests, the object was read as this transaction's own, with the recorded
      UID and exactly as desired. */
  ghost predicate SeenOwned(item: Item, record: Record, nonce: nat, sightings: seq<Sighting>, at: nat) {
    exists o :: Sighting(item.target, Some(o), at) in sightings
                && record.uid == Some(o.uid) && o.mark == Ours(nonce) && o.body == item.desired
  }

  /** What has been found out about the first `n` objects: the recorded ones are owned,
      with the UIDs recorded before, and the names of the others are free. */
  ghost predicate Found(plan: Plan, n: nat, before: seq<Record>, state: Receipt, sightings: seq<Sighting>, at: nat) {
    && n <= |plan| && |state.objects| == |before| <= |plan|
    && (forall i :: 0 <= i < n && i < |before| ==>
          SeenOwned(plan[i], state.objects[i], state.nonce, sightings, at)
          && (before[i].uid.Some? ==> state.objects[i].uid == before[i].uid))
    && (forall i :: n <= i < |before| ==> state.objects[i] == before[i])
    && (forall i :: |before| <= i < n ==> Sighting(plan[i].target, None, at) in sightings)
  }

  lemma NotYetFound(plan: Plan, n: nat, before: seq<Record>, state: Receipt, sightings: seq<Sighting>, at: nat)
    requires Found(plan, n, before, state, sightings, at)
    ensures |state.objects| == |before| <= |plan| && forall i :: n <= i < |before| ==> state.objects[i] == before[i]
  {
  }

  lemma StillSeenOwned(item: Item, record: Record, nonce: nat, few: seq<Sighting>, many: seq<Sighting>, at: nat)
    requires few <= many && SeenOwned(item, record, nonce, few, at)
    ensures SeenOwned(item, record, nonce, many, at)
  {
    var o :| Sighting(item.target, Some(o), at) in few && record.uid == Some(o.uid) && o.mark == Ours(nonce) && o.body == item.desired;
    assert Sighting(item.target, Some(o), at) in many;
  }

  lemma FoundFree(plan: Plan, n: nat, before: seq<Record>, state: Receipt, few: seq<Sighting>, many: seq<Sighting>, at: nat)
    requires Found(plan, n, before, state, few, at) && few <= many && |before| <= n < |plan|
    requires Sighting(plan[n].target, None, at) in many
    ensures Found(plan, n + 1, before, state, many, at)
  {
    forall i | 0 <= i < |before|
      ensures SeenOwned(plan[i], state.objects[i], state.nonce, many, at)
    {
      StillSeenOwned(plan[i], state.objects[i], state.nonce, few, many, at);
    }
  }

  lemma FoundOwned(plan: Plan, n: nat, before: seq<Record>, state: Receipt, later: Receipt,
                   few: seq<Sighting>, many: seq<Sighting>, at: nat, o: Obj)
    requires Found(plan, n, before, state, few, at) && few <= many && n < |before|
    requires Sighting(plan[n].target, Some(o), at) in many && o.mark == Ours(later.nonce) && o.body == plan[n].desired
    requires later.nonce == state.nonce && |later.objects| == |before| && later.objects[n].uid == Some(o.uid)
    requires before[n].uid.Some? ==> before[n].uid == Some(o.uid)
    requires forall i :: 0 <= i < |before| && i != n ==> later.objects[i] == state.objects[i]
    ensures Found(plan, n + 1, before, later, many, at)
  {
    forall i | 0 <= i < n
      ensures SeenOwned(plan[i], later.objects[i], later.nonce, many, at)
    {
      StillSeenOwned(plan[i], state.objects[i], state.nonce, few, many, at);
    }
    assert SeenOwned(plan[n], later.objects[n], later.nonce, many, at);
  }

  class Coordinator {
    const world: World
    const plan: Plan
    var state: Receipt

    ghost predicate Running()
      reads this, world
    {
      && Inv(plan, world) && world.ledger != []
      && Sound(plan, state, world.made)
      && Extends(world.ledger[|world.ledger| - 1], state)
      && |state.objects| <= |plan|
      && state.nonce == world.ledger[0].nonce
    }

    /** What a step that sends no create leaves alone. */
    twostate predicate Quiet()
      reads this, world
    {
      && world.trace == old(world.trace) && world.basis == old(world.basis)
      && old(world.ledger) <= world.ledger
    }

    /** The world moved on, the ledger did not. */
    twostate lemma Moved()
      requires old(Running()) && world.Grew() && state == old(state)
      requires world.trace == old(world.trace) && world.basis == old(world.basis) && world.ledger == old(world.ledger)
      ensures Running()
    {
      ChainedGrows(plan, world.ledger, old(world.made), world.made);
      SoundGrows(plan, state, old(world.made), world.made);
    }

    constructor (world: World, plan: Plan, state: Receipt)
      ensures this.world == world && this.plan == plan && this.state == state
    {
      this.world, this.plan, this.state := world, plan, state;
    }

    method Commit() returns (r: Result<()>)
      requires Running()
      modifies world
      ensures Running() && Quiet() && world.sightings == old(world.sightings)
      ensures r.Ok? ==> world.Last() == Some(state)
    {
      r := world.Commit(state);
      assert (old(world.ledger) + [state])[..|old(world.ledger)|] == old(world.ledger);
    }

    method Check() returns (r: Result<()>)
      requires Running()
      modifies world
      ensures Running() && Quiet() && world.ledger == old(world.ledger)
    {
      r := world.Check();
      Moved();
    }

    method Read(key: Key) returns (r: Result<Option<Obj>>)
      requires Running()
      modifies world
      ensures Running() && Quiet() && world.ledger == old(world.ledger) && old(world.sightings) <= world.sightings
      ensures r.Ok? ==> r.value == if key in world.objects then Some(world.objects[key]) else None
      ensures r.Ok? ==> Sighting(key, r.value, |world.trace|) in world.sightings
    {
      r := world.Get(key);
      Moved();
      assert r.Ok? ==> world.sightings[|old(world.sightings)|] == Sighting(key, r.value, |world.trace|);
    }

    /** Read one plan object and bind it to this transaction. */
    method Observe(item: Item) returns (r: Result<Obj>)
      requires Running()
      modifies world
      ensures Running() && Quiet() && world.ledger == old(world.ledger) && old(world.sightings) <= world.sightings
      ensures r.Ok? ==> Sighting(item.target, Some(r.value), |world.trace|) in world.sightings
      ensures r.Ok? ==> item.target in world.objects && world.objects[item.target] == r.value
      ensures r.Ok? ==> r.value.mark == Ours(state.nonce) && r.value.body == item.desired
    {
      var observed :- Read(item.target);
      r := BoundIdentity(observed, DesiredPost(item, state.nonce));
    }

    /** Every record before `n` is an owned object. */
    ghost predicate OwnedUpTo(n: nat)
      reads this
    {
      n <= |state.objects| && forall j :: 0 <= j < n ==> state.objects[j].state.Created?
    }

    /** The runtime verification that must precede the create of a phase. */
    ghost predicate VerifiedBefore(phase: Phase)
      reads this
    {
      && (phase.Public? ==> state.checkpoint == Some(ControlVerified) && Control in state.checks)
      && (phase.SuspendedFlux? ==>
            state.checkpoint == Some(PublicVerified) && Control in state.checks && Public in state.checks)
    }

    /** Append the intent for the next plan object and make it durable. */
    method Intend(desired: Post) returns (r: Result<()>)
      requires Running() && state.status.Creating?
      requires |state.objects| < |plan| && OwnedUpTo(|state.objects|) && VerifiedBefore(plan[|state.objects|].phase)
      requires desired == DesiredPost(plan[|state.objects|], state.nonce)
      modifies this, world
      ensures Running() && Quiet()
      ensures state == old(state).(objects := state.objects)
      ensures |state.objects| == |old(state.objects)| + 1 && OwnedUpTo(|state.objects| - 1)
      ensures state.objects[|state.objects| - 1].uid.None?
      ensures r.Ok? ==> world.Last() == Some(state) && Authorizes(plan, state, desired)
      ensures r.Ok? ==> NothingSentAt(|state.objects|, state.nonce, world.trace, world.basis)
    {
      var item := plan[|state.objects|];
      EarlierPosts();
      state := state.(objects := state.objects + [Record(item.target, item.phase, Sha(desired), CreateIntent, None, None)]);
      r := Commit();
    }

    /** Send a create from the receipt that was just made durable. */
    method Send(desired: Post) returns (reply: Reply)
      requires Running() && world.Last() == Some(state)
      requires Authorizes(plan, state, desired) && desired.nonce == state.nonce
      requires NothingSentAt(|state.objects|, state.nonce, world.trace, world.basis)
      modifies world
      ensures Running() && world.ledger == old(world.ledger)
      ensures reply.Admitted? ==> desired.key in world.objects && world.objects[desired.key] == reply.obj
      ensures reply.Admitted? ==> reply.obj.mark == Ours(desired.nonce)
    {
      hide WriteAhead, Authorizes, NothingSentAt, Sound, Extends;
      SendKeepsWriteAhead(plan, state, desired, world.trace, world.basis, world.ledger);
      reply := world.Create(desired);
      ChainedGrows(plan, world.ledger, old(world.made), world.made);
      SoundGrows(plan, state, old(world.made), world.made);
    }

    /** Send the create behind its durable intent, and find out what became of it.
        A lost answer is never a reason to send again. */
    method Request(desired: Post) returns (r: Result<Obj>)
      requires Running() && state.status.Creating?
      requires |state.objects| < |plan| && OwnedUpTo(|state.objects|) && VerifiedBefore(plan[|state.objects|].phase)
      requires desired == DesiredPost(plan[|state.objects|], state.nonce)
      modifies this, world
      ensures Running() && old(world.ledger) <= world.ledger
      ensures r.Ok? ==> state == old(state).(objects := state.objects)
      ensures r.Ok? ==> |state.objects| == |old(state.objects)| + 1 && OwnedUpTo(|state.objects| - 1)
      ensures r.Ok? ==> state.objects[|state.objects| - 1].uid.None?
      ensures r.Ok? ==> desired.key in world.objects && world.objects[desired.key] == r.value
      ensures r.Ok? ==> r.value.mark == Ours(state.nonce) && r.value.body == desired.body
    {
      var _ :- Intend(desired);
      var reply := Send(desired);
      if reply.Gone? {
        return Err(Died);
      } else if reply.AlreadyExists? {
        Lose(|state.objects| - 1);
        return Err(Raised);
      }
      var observed := if reply.Admitted? then Some(reply.obj) else None;
      if reply.NoReply? || reply.Thrown? {
        observed :- Read(desired.key);
      }
      r := BoundIdentity(observed, desired);
    }

    method CreateNext() returns (r: Result<()>)
      requires Running() && state.status.Creating?
      requires |state.objects| < |plan| && OwnedUpTo(|state.objects|) && VerifiedBefore(plan[|state.objects|].phase)
      modifies this, world
      ensures Running() && old(world.ledger) <= world.ledger
      ensures r.Ok? ==> |state.objects| == |old(state.objects)| + 1 && OwnedUpTo(|state.objects|)
      ensures r.Ok? ==> state == old(state).(objects := state.objects)
    {
      hide Inv, Sound, Extends;
      var index := |state.objects|;
      var identity :- Request(DesiredPost(plan[index], state.nonce));
      var _ :- Require(forall j :: 0 <= j < index ==> state.objects[j].uid != Some(identity.uid));
      Own(index, identity);
      var _ :- Commit();
      r := Ok(());
    }

    /** A definite conflict: the record is spoilt for good. */
    method Lose(index: nat)
      requires Running() && index == |state.objects| - 1 && state.objects[index].state.CreateIntent?
      requires state.status.Creating?
      modifies this
      ensures Running() && state == old(state).(objects := old(state).objects[index := old(state).objects[index].(state := Conflict)])
    {
      state := state.(objects := state.objects[index := state.objects[index].(state := Conflict)]);
    }

    /** The creates so far were sent from receipts of at most the present length. */
    lemma EarlierPosts()
      requires Running()
      ensures NothingSentAt(|state.objects| + 1, state.nonce, world.trace, world.basis)
    {
      forall p | 0 <= p < |world.trace| && world.trace[p].PostSent? && world.trace[p].post.nonce == state.nonce
        ensures |world.basis[p].value.objects| <= |state.objects|
      {
        var i :| 0 <= i < |world.ledger| && world.ledger[i] == world.basis[p].value;
        ChainedAt(plan, world.ledger, world.made, i, |world.ledger| - 1);
      }
    }

    /** Record an observed object as owned. */
    method Own(index: nat, identity: Obj)
      requires Running() && index < |state.objects|
      requires state.objects[index].uid.None? || state.objects[index].uid == Some(identity.uid)
      requires plan[index].target in world.objects && world.objects[plan[index].target] == identity
      requires identity.mark == Ours(state.nonce)
      modifies this
      ensures Running()
      ensures state == old(state).(objects := old(state).objects[index := old(state.objects)[index].(
                                   state := Created, uid := Some(identity.uid), version := Some(identity.version))])
    {
      var record := state.objects[index].(state := Created, uid := Some(identity.uid), version := Some(identity.version));
      state := state.(objects := state.objects[index := record]);
    }
 
    /** Change the status; only a complete transaction may call itself verified. */
    method Enter(status: Status)
      requires Running() && !status.VerifiedSuspended?
      modifies this
      ensures Running() && state == old(state).(status := status)
    {
      state := state.(status := status);
    }

    method EnterVerified()
      requires Running() && |state.objects| == |plan| && OwnedUpTo(|plan|)
      requires Control in state.checks && Public in state.checks
      modifies this
      ensures Running() && state == old(state).(status := VerifiedSuspended) && Complete(plan, state)
    {
      state := state.(status := VerifiedSuspended);
      assert forall p <- state.checks :: p in {Control, Public};
    }

    /** Move the checkpoint, with the evidence that belongs to it. */
    method Note(checkpoint: Checkpoint, checks: map<Phase, Evidence>)
      requires Running() && state.status.Creating?
      requires forall p <- checks :: (p in state.checks && checks[p] == state.checks[p])
                                     || (Runtime(p) && ValidEvidence(p, checks[p]))
      modifies this
      ensures Running() && state == old(state).(checkpoint := Some(checkpoint), checks := checks)
    {
      state := state.(checkpoint := Some(checkpoint), checks := checks);
    }

    /** One object of the plan: bind the recorded one again, or find its name free. */
    method RecoverAt(index: nat, ghost before: seq<Record>) returns (r: Result<()>)
      requires Running() && index < |plan| && Found(plan, index, before, state, world.sightings, |world.trace|)
      modifies this, world
      ensures Running() && Quiet() && |state.objects| == |old(state.objects)|
      ensures forall i :: 0 <= i < |state.objects| && i != index ==> state.objects[i] == old(state.objects[i])
      ensures r.Ok? ==> Found(plan, index + 1, before, state, world.sightings, |world.trace|)
      ensures r.Ok? && index < |state.objects| ==> state.objects[index].state.Created?
    {
      hide Inv, Sound, Extends, Found, SeenOwned;
      NotYetFound(plan, index, before, state, world.sightings, |world.trace|);
      ghost var start, seen := state, world.sightings;
      if index >= |state.objects| {
        var observed :- Read(plan[index].target);
        var _ :- Require(observed.None?);
        FoundFree(plan, index, before, state, seen, world.sightings, |world.trace|);
      } else {
        var identity :- Observe(plan[index]);
        var record := state.objects[index];
        var _ :- Require(record.uid.None? || record.uid == Some(identity.uid));
        Own(index, identity);
        FoundOwned(plan, index, before, start, state, seen, world.sightings, |world.trace|, identity);
        var _ :- Commit();
      }
      r := Ok(());
    }

    /** Re-observe the recovered prefix and require every later name to be free. Nothing is
        sent, and no recorded UID changes. */
    method Recover() returns (r: Result<()>)
      requires Running()
      modifies this, world
      ensures Running() && Quiet()
      ensures r.Ok? ==> |state.objects| <= |plan| && OwnedUpTo(|state.objects|)
      ensures r.Ok? ==> Found(plan, |plan|, old(state.objects), state, world.sightings, |world.trace|)
    {
      hide Inv, Sound, Extends;
      for index := 0 to |plan|
        invariant Running() && Quiet() && |state.objects| == |old(state.objects)| <= |plan|
        invariant Found(plan, index, old(state.objects), state, world.sightings, |world.trace|)
        invariant OwnedUpTo(if index < |state.objects| then index else |state.objects|)
      {
        hide Found;
        var _ :- RecoverAt(index, old(state.objects));
      }
      r := Ok(());
    }

    /** Inspect the live runtime of a Deployment between two durable checkpoints. */
    method VerifyRuntime(phase: Phase) returns (r: Result<()>)
      requires Running() && state.status.Creating? && Runtime(phase)
      modifies this, world
      ensures Running() && old(world.ledger) <= world.ledger
      ensures state.objects == old(state.objects)
      ensures r.Ok? ==> state.status.Creating? && state.checks.Keys == old(state.checks.Keys) + {phase}
      ensures r.Ok? ==> state.checkpoint == Some(if phase.Control? then ControlVerified else PublicVerified)
    {
      hide Inv, Sound, Extends;
      Note(if phase.Control? then ControlIntent else PublicIntent, state.checks);
      var _ :- Commit();
      var _ :- Check();
      var evidence: Evidence := *;
      var _ :- Require(ValidEvidence(phase, evidence));
      Note(if phase.Control? then ControlVerified else PublicVerified, state.checks[phase := evidence]);
      r := Commit();
    }

    /** Every phase in turn. */
    method CreateAll() returns (r: Result<()>)
      requires Running() && Phased(plan) && state.status.Creating? && OwnedUpTo(|state.objects|) && |state.objects| <= |plan|
      modifies this, world
      ensures Running() && old(world.ledger) <= world.ledger
      ensures r.Ok? ==> |state.objects| == |plan| && OwnedUpTo(|plan|) && Control in state.checks && Public in state.checks
    {
      hide Inv, Sound, Extends;
      for index := 0 to |plan|
        invariant Running() && old(world.ledger) <= world.ledger
        invariant state.status.Creating? && OwnedUpTo(|state.objects|) && index <= |state.objects| <= |plan|
        invariant index > 0 && !plan[index - 1].phase.Isolation? ==> Control in state.checks
        invariant index > 0 && plan[index - 1].phase.Control? ==> state.checkpoint == Some(ControlVerified)
        invariant index > 0 && PhaseRank(plan[index - 1].phase) >= 2 ==>
                    Public in state.checks && state.checkpoint == Some(PublicVerified)
      {
        var _ :- Check();
        if index >= |state.objects| {
          var _ :- CreateNext();
        }
        if Runtime(plan[index].phase) {
          var _ :- VerifyRuntime(plan[index].phase);
        }
      }
      r := Ok(());
    }

    /** Bind every final UID and exact body again. Nothing is sent or recorded. */
    method Rebind() returns (r: Result<()>)
      requires Running() && |state.objects| == |plan|
      modifies world
      ensures Running() && Quiet() && world.ledger == old(world.ledger)
      ensures r.Ok? ==> Found(plan, |plan|, state.objects, state, world.sightings, |world.trace|)
    {
      hide Inv, Sound, Extends;
      for index := 0 to |plan|
        invariant Running() && Quiet() && world.ledger == old(world.ledger)
        invariant Found(plan, index, state.objects, state, world.sightings, |world.trace|)
      {
        ghost var seen := world.sightings;
        var identity :- Observe(plan[index]);
        var _ :- Require(state.objects[index].uid == Some(identity.uid));
        FoundOwned(plan, index, state.objects, state, state, seen, world.sightings, |world.trace|, identity);
      }
      r := Ok(());
    }

    /** The body of a run, up to its first exception. */
    method Execute() returns (r: Result<()>)
      requires Running() && Phased(plan)
      modifies this, world
      ensures Running() && old(world.ledger) <= world.ledger
      ensures r.Ok? ==> world.Last() == Some(state) && Complete(plan, state)
    {
      hide Inv, Sound, Extends;
      var _ :- Check();
      var _ :- Recover();
      Enter(Creating);
      var _ :- Commit();
      var _ :- CreateAll();
      var _ :- Rebind();
      var _ :- Check();
      EnterVerified();
      r := Commit();
    }
  }

  /** Start a new transaction: draw the nonce and make the reservation durable. */
  method Reserve(world: World, plan: Plan) returns (run: Coordinator, r: Result<()>)
    requires Inv(plan, world) && world.ledger == []
    modifies world
    ensures Inv(plan, world) && fresh(run) && run.world == world && run.plan == plan
    ensures r.Ok? ==> run.Running()
  {
    var nonce := world.Draw();
    var state := Receipt(Sha(plan), nonce, Reserved, [], None, map[], true, false, false);
    run := new Coordinator(world, plan, state);
    r := world.Commit(state);
    assert forall p :: 0 <= p < |world.trace| && world.trace[p].PostSent? ==> world.trace[p] in world.trace;
  }

  /** Continue from the last durable receipt. */
  method Resume(world: World, plan: Plan) returns (run: Coordinator, r: Result<()>)
    requires Inv(plan, world) && world.ledger != []
    modifies world
    ensures Inv(plan, world) && old(world.ledger) <= world.ledger && fresh(run) && run.world == world && run.plan == plan
    ensures r.Ok? ==> run.Running()
  {
    hide Sound, Extends, WriteAhead;
    var prior := world.ledger[|world.ledger| - 1];
    var recovered := BindRecovery(plan, Sealed(prior, Sha(prior)));
    run := new Coordinator(world, plan, prior);
    if recovered.None? {
      return run, Err(Raised);
    }
    RecoveredRunning(run);
    r := run.Commit();
  }

  lemma RecoveredRunning(run: Coordinator)
    requires Inv(run.plan, run.world) && run.world.ledger != []
    requires run.state == run.world.ledger[|run.world.ledger| - 1]
    ensures run.Running()
  {
    ChainedAt(run.plan, run.world.ledger, run.world.made, 0, |run.world.ledger| - 1);
  }

  /** One run of the coordinator, fresh or resumed from the last durable receipt.
      However it ends, the transaction invariant holds, so the next run may start. */
  method RunBootstrap(world: World, plan: Plan) returns (r: Result<Receipt>)
    requires Phased(plan) && Inv(plan, world)
    modifies world
    ensures Inv(plan, world) && old(world.ledger) <= world.ledger
    ensures r.Ok? ==> world.Last() == Some(r.value) && Complete(plan, r.value)
  {
    hide Inv, Sound, Extends, Complete;
    var run, begun;
    if world.ledger == [] {
      run, begun := Reserve(world, plan);
    } else {
      run, begun := Resume(world, plan);
    }
    var _ :- begun;
    var outcome := run.Execute();
    if outcome.Ok? {
      return Ok(run.state);
    } else if outcome.fault.Raised? {
      run.Enter(Stopped);
      var _ := run.Commit();
    }
    r := Err(outcome.fault);
  }

  /** Any number of runs in a row, each ending in success, an exception or a crash. */
  method RunAgainAndAgain(world: World, plan: Plan)
    requires Phased(plan) && Inv(plan, world)
    modifies world
    ensures Inv(plan, world) && old(world.ledger) <= world.ledger
  {
    var runs: nat := *;
    while runs > 0
      invariant Inv(plan, world) && old(world.ledger) <= world.ledger
    {
      ghost var made := world.made;
      world.Interfere();
      ChainedGrows(plan, world.ledger, made, world.made);
      var _ := RunBootstrap(world, plan);
      runs := runs - 1;
    }
  }

  // --------------------------------------------------------------- what follows

  /** No plan object is ever requested twice, by any chain of runs, and nothing
      but plan objects is requested. */
  lemma EachObjectRequestedOnce(plan: Plan, world: World, p: nat, q: nat)
    requires OrderedPlan(plan) && Inv(plan, world) && world.ledger != []
    requires p < q < |world.trace|
    requires world.trace[p].PostSent? && world.trace[p].post.nonce == world.ledger[0].nonce
    requires world.trace[q].PostSent? && world.trace[q].post.nonce == world.ledger[0].nonce
    ensures world.trace[p].post.key != world.trace[q].post.key
    ensures exists i :: 0 <= i < |plan| && world.trace[p].post == DesiredPost(plan[i], world.ledger[0].nonce)
  {
    assert world.trace[p].post == DesiredPost(plan[|world.basis[p].value.objects| - 1], world.ledger[0].nonce);
  }

  /** A UID that any receipt calls created belongs to an object that this
      transaction's own request for exactly that plan object made. */
  lemma NothingIsAdopted(plan: Plan, world: World, receipt: Receipt, i: nat)
    requires OrderedPlan(plan) && Inv(plan, world) && receipt in world.ledger
    requires i < |receipt.objects| && receipt.objects[i].state.Created?
    ensures i < |plan| && receipt.objects[i].uid.Some? && receipt.objects[i].uid.value in world.made
    ensures world.made[receipt.objects[i].uid.value] == DesiredPost(plan[i], world.ledger[0].nonce)
    ensures PostSent(DesiredPost(plan[i], world.ledger[0].nonce)) in world.trace
  {
    var n :| 0 <= n < |world.ledger| && world.ledger[n] == receipt;
    ChainedAt(plan, world.ledger, world.made, 0, n);
    var post := world.made[receipt.objects[i].uid.value];
    var p :| 0 <= p < |world.trace| && world.trace[p] == PostSent(post);
    assert post == DesiredPost(plan[|world.basis[p].value.objects| - 1], receipt.nonce);
  }

  /** Receipt closure: recovery accepts exactly the receipts without a conflict. */
  lemma ReceiptsAreRecoverable(plan: Plan, world: World, receipt: Receipt)
    requires OrderedPlan(plan) && Inv(plan, world) && receipt in world.ledger
    ensures Acceptable(plan, receipt) <==> forall r <- receipt.objects :: !r.state.Conflict?
  {
    var n :| 0 <= n < |world.ledger| && world.ledger[n] == receipt;
    ChainedAt(plan, world.ledger, world.made, n, n);
    if forall r <- receipt.objects :: !r.state.Conflict? {
      forall i | 0 <= i < |receipt.objects|
        ensures AcceptableRecord(plan, receipt, i)
      {
        assert OwnedRecord(plan[i], receipt.nonce, receipt.objects[i], i == |receipt.objects| - 1, world.made);
      }
    } else {
      var i :| 0 <= i < |receipt.objects| && receipt.objects[i].state.Conflict?;
      assert Acceptable(plan, receipt) ==> AcceptableRecord(plan, receipt, i);
    }
  }

  /** The owned prefix never shrinks and its UIDs never change. */
  lemma OwnershipOnlyGrows(plan: Plan, world: World, i: nat, j: nat)
    requires Inv(plan, world) && i <= j < |world.ledger|
    ensures Extends(world.ledger[i], world.ledger[j])
  {
    ChainedAt(plan, world.ledger, world.made, i, j);
  }

  /** Isolation before processes, verified control before public, both before Flux:
      read off the durable receipt that was in force when the create was sent. */
  lemma PhasesAreSafe(plan: Plan, world: World, p: nat, i: nat)
    requires OrderedPlan(plan) && Inv(plan, world) && world.ledger != []
    requires p < |world.trace| && i < |plan|
    requires world.trace[p] == PostSent(DesiredPost(plan[i], world.ledger[0].nonce))
    ensures world.basis[p].Some? && world.basis[p].value in world.ledger
    ensures |world.basis[p].value.objects| == i + 1
    ensures plan[i].target.kind.DeploymentKind? ==>
              forall j :: 0 <= j < |plan| && plan[j].target.kind.NetworkPolicyKind? ==>
                            j < i && world.basis[p].value.objects[j].state.Created?
    ensures plan[i].phase.Public? ==>
              && world.basis[p].value.checkpoint == Some(ControlVerified) && Control in world.basis[p].value.checks
              && ValidEvidence(Control, world.basis[p].value.checks[Control])
    ensures plan[i].phase.SuspendedFlux? ==>
              && world.basis[p].value.checkpoint == Some(PublicVerified)
              && Control in world.basis[p].value.checks && Public in world.basis[p].value.checks
              && ValidEvidence(Control, world.basis[p].value.checks[Control])
              && ValidEvidence(Public, world.basis[p].value.checks[Public])
  {
    var receipt := world.basis[p].value;
    var n :| 0 <= n < |world.ledger| && world.ledger[n] == receipt;
    ChainedAt(plan, world.ledger, world.made, n, n);
    assert DesiredPost(plan[|receipt.objects| - 1], receipt.nonce) == DesiredPost(plan[i], receipt.nonce);
  }
}
