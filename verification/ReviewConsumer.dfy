/** The check Pod and the initializer Pod of the review volume. Both are the same
    machine: a deny-all policy, for the initializer a configuration, then the Pod,
    each created at most once behind its own durable intent. */
module ReviewConsumer {
  import opened Wrappers
  import opened ApiServer

  datatype Role = Policy | Config | Worker

  datatype Item = Item(role: Role, target: Key, desired: Body)

  /** `config` is present exactly in the initializer variant. */
  datatype Plan = Plan(operation: nat, policy: Item, config: Option<Item>, worker: Item) {
    function Items(): seq<Item> {
      if config.Some? then [policy, config.value, worker] else [policy, worker]
    }

    predicate Valid() {
      && policy.role.Policy? && worker.role.Worker? && (config.Some? ==> config.value.role.Config?)
      && policy.target != worker.target
      && (config.Some? ==> config.value.target != policy.target && config.value.target != worker.target)
    }
  }

  datatype Status = Reserved | PolicyIntent | PolicyCreated | ConfigIntent | ConfigCreated
                  | WorkerIntent | AwaitingCheck | Verified | Conflict

  datatype Receipt = Receipt(plan: Plan, status: Status, policyUid: Option<nat>, configUid: Option<nat>, workerUid: Option<nat>) {
    function Uid(role: Role): Option<nat> {
      match role case Policy => policyUid case Config => configUid case Worker => workerUid
    }

    function Bind(role: Role, uid: nat): (r: Receipt)
      ensures r.Uid(role) == Some(uid) && r.status == status && r.plan == plan
      ensures forall other :: other != role ==> r.Uid(other) == Uid(other)
    {
      match role
      case Policy => this.(policyUid := Some(uid))
      case Config => this.(configUid := Some(uid))
      case Worker => this.(workerUid := Some(uid))
    }
  }

  type World = Cluster<Receipt>

  function Rank(status: Status): nat {
    match status
    case Reserved => 0
    case PolicyIntent => 1
    case PolicyCreated => 2
    case ConfigIntent => 3
    case ConfigCreated => 4
    case WorkerIntent => 5
    case AwaitingCheck => 6
    case Verified => 7
    case Conflict => 8
  }

  function Intent(role: Role): Status {
    match role case Policy => PolicyIntent case Config => ConfigIntent case Worker => WorkerIntent
  }

  function Completed(role: Role): Status {
    match role case Policy => PolicyCreated case Config => ConfigCreated case Worker => AwaitingCheck
  }

  /** The status from which an object's create may start. */
  function Start(plan: Plan, role: Role): Status {
    match role
    case Policy => Reserved
    case Config => PolicyCreated
    case Worker => if plan.config.Some? then ConfigCreated else PolicyCreated
  }

  /** What recovery demands of a prior receipt, beyond its pinned checksum. */
  predicate Acceptable(plan: Plan, r: Receipt) {
    && r.plan == plan && !r.status.Conflict?
    && (r.status.ConfigIntent? || r.status.ConfigCreated? ==> plan.config.Some?)
    && (plan.config.None? ==> r.configUid.None?)
    && (Rank(r.status) >= 2 ==> r.policyUid.Some?)
    && (Rank(r.status) >= 6 ==> r.workerUid.Some?)
    && (plan.config.Some? && Rank(r.status) >= 4 ==> r.configUid.Some?)
  }

  predicate Keeps(earlier: Receipt, later: Receipt, role: Role) {
    earlier.Uid(role).Some? ==> later.Uid(role) == earlier.Uid(role)
  }

  predicate MayFollow(earlier: Receipt, later: Receipt) {
    && Rank(earlier.status) <= Rank(later.status)
    && (later.status.Conflict? ==> earlier.status in {PolicyIntent, ConfigIntent, WorkerIntent})
    && Keeps(earlier, later, Policy) && Keeps(earlier, later, Config) && Keeps(earlier, later, Worker)
  }

  function Desired(plan: Plan, item: Item): Post {
    Post(item.target, plan.operation, item.desired)
  }

  /** Every recorded UID is of an object that our own create made. */
  ghost predicate OwnsUids(plan: Plan, r: Receipt, made: map<nat, Post>) {
    forall item <- plan.Items() :: r.Uid(item.role).Some? ==>
      && r.Uid(item.role).value in made
      && made[r.Uid(item.role).value].key == item.target && made[r.Uid(item.role).value].nonce == plan.operation
  }

  ghost predicate Chained(plan: Plan, ledger: seq<Receipt>, made: map<nat, Post>) {
    if ledger == [] then true else
      var n := |ledger| - 1;
      && Chained(plan, ledger[..n], made)
      && !ledger[n].status.Reserved? && OwnsUids(plan, ledger[n], made)
      && (ledger[n].status.Conflict? || Acceptable(plan, ledger[n]))
      && (n > 0 ==> MayFollow(ledger[n - 1], ledger[n]))
  }

  /** The receipt from which a create may be sent: its intent, with everything that
      must exist before it bound and recorded. */
  predicate Authorizes(plan: Plan, r: Receipt, post: Post) {
    exists item <- plan.Items() ::
      && post == Desired(plan, item) && r.status == Intent(item.role)
      && (!item.role.Policy? ==> r.policyUid.Some?)
      && (item.role.Worker? && plan.config.Some? ==> r.configUid.Some?)
  }

  ghost predicate WriteAhead(plan: Plan, trace: seq<Event>, basis: seq<Option<Receipt>>, ledger: seq<Receipt>)
    requires |trace| == |basis|
  {
    && (forall p :: 0 <= p < |trace| && trace[p].PostSent? && trace[p].post.nonce == plan.operation ==>
          basis[p].Some? && basis[p].value in ledger && Authorizes(plan, basis[p].value, trace[p].post))
    && (forall p, q :: 0 <= p < q < |trace| && trace[p].PostSent? && trace[p].post.nonce == plan.operation
                       && trace[q].PostSent? && trace[q].post.nonce == plan.operation ==>
          Rank(basis[p].value.status) < Rank(basis[q].value.status))
  }

  /** No create was sent from a receipt of this rank or beyond. */
  ghost predicate NothingSentAt(rank: nat, plan: Plan, trace: seq<Event>, basis: seq<Option<Receipt>>)
    requires |trace| == |basis|
  {
    forall p :: 0 <= p < |trace| && trace[p].PostSent? && trace[p].post.nonce == plan.operation && basis[p].Some? ==>
                  Rank(basis[p].value.status) < rank
  }

  ghost predicate Inv(plan: Plan, world: World)
    reads world
  {
    && world.Valid() && plan.Valid() && plan.operation < world.nextNonce
    && Chained(plan, world.ledger, world.made)
    && WriteAhead(plan, world.trace, world.basis, world.ledger)
  }

  lemma ChainedGrows(plan: Plan, ledger: seq<Receipt>, made: map<nat, Post>, made': map<nat, Post>)
    requires forall u <- made :: u in made' && made'[u] == made[u]
    requires Chained(plan, ledger, made)
    ensures Chained(plan, ledger, made')
  {
    if ledger != [] {
      ChainedGrows(plan, ledger[..|ledger| - 1], made, made');
    }
  }

  /** Along a chain ranks only move forward, UIDs never change, a conflict is terminal,
      and every other receipt passes the recovery checks. */
  lemma {:induction false} ChainsMoveForward(plan: Plan, ledger: seq<Receipt>, made: map<nat, Post>, i: nat, j: nat)
    requires Chained(plan, ledger, made) && i <= j < |ledger|
    ensures Rank(ledger[i].status) <= Rank(ledger[j].status)
    ensures Keeps(ledger[i], ledger[j], Policy) && Keeps(ledger[i], ledger[j], Config) && Keeps(ledger[i], ledger[j], Worker)
    ensures Acceptable(plan, ledger[j]) <==> !ledger[j].status.Conflict?
    ensures ledger[i].status.Verified? ==> ledger[j].status.Verified?
    ensures i < j ==> !ledger[i].status.Conflict?
    ensures OwnsUids(plan, ledger[j], made)
  {
    var n := |ledger| - 1;
    if j < n {
      ChainsMoveForward(plan, ledger[..n], made, i, j);
    } else if i < n {
      ChainsMoveForward(plan, ledger[..n], made, i, n - 1);
    }
  }

  lemma SendKeepsWriteAhead(plan: Plan, receipt: Receipt, post: Post, trace: seq<Event>,
                            basis: seq<Option<Receipt>>, ledger: seq<Receipt>)
    requires |trace| == |basis| && WriteAhead(plan, trace, basis, ledger)
    requires receipt in ledger && Authorizes(plan, receipt, post)
    requires NothingSentAt(Rank(receipt.status), plan, trace, basis)
    ensures WriteAhead(plan, trace + [PostSent(post)], basis + [Some(receipt)], ledger)
  {
  }

  lemma MoreReceipts(plan: Plan, trace: seq<Event>, basis: seq<Option<Receipt>>, few: seq<Receipt>, many: seq<Receipt>)
    requires |trace| == |basis| && WriteAhead(plan, trace, basis, few) && few <= many
    ensures WriteAhead(plan, trace, basis, many)
  {
    assert forall r <- few :: r in many;
  }

  /** A receipt that may stand at the end of this chain. */
  ghost predicate Appendable(plan: Plan, ledger: seq<Receipt>, receipt: Receipt, made: map<nat, Post>) {
    && !receipt.status.Reserved? && OwnsUids(plan, receipt, made)
    && (receipt.status.Conflict? || Acceptable(plan, receipt))
    && (ledger != [] ==> MayFollow(ledger[|ledger| - 1], receipt))
  }

  lemma ChainedAppend(plan: Plan, ledger: seq<Receipt>, receipt: Receipt, made: map<nat, Post>)
    requires Chained(plan, ledger, made) && Appendable(plan, ledger, receipt, made)
    ensures Chained(plan, ledger + [receipt], made)
  {
    assert (ledger + [receipt])[..|ledger|] == ledger;
  }

  class Operation {
    const world: World
    const plan: Plan
    var state: Receipt

    ghost predicate Running()
      reads this, world
    {
      && Inv(plan, world)
      && Acceptable(plan, state) && OwnsUids(plan, state, world.made)
      && (world.ledger == [] ==> state.status.Reserved?)
      && (world.ledger != [] ==> MayFollow(world.ledger[|world.ledger| - 1], state) && !state.status.Reserved?)
    }

    constructor (world: World, plan: Plan, state: Receipt)
      ensures this.world == world && this.plan == plan && this.state == state
    {
      this.world, this.plan, this.state := world, plan, state;
    }

    twostate lemma Moved()
      requires old(Running()) && world.Grew() && state == old(state)
      requires world.trace == old(world.trace) && world.basis == old(world.basis) && world.ledger == old(world.ledger)
      ensures Running()
    {
      ChainedGrows(plan, world.ledger, old(world.made), world.made);
    }

    /** Set the status and make the state durable. */
    method Commit(status: Status) returns (r: Result<()>)
      requires Running() && !status.Reserved? && Acceptable(plan, state.(status := status))
      requires Rank(state.status) <= Rank(status)
      modifies this, world
      ensures state == old(state).(status := status) && Inv(plan, world) && old(world.ledger) <= world.ledger
      ensures world.trace == old(world.trace) && world.basis == old(world.basis)
      ensures r.Ok? ==> Running() && world.Last() == Some(state)
    {
      hide WriteAhead, Chained;
      state := state.(status := status);
      assert OwnsUids(plan, state, world.made);
      r := Persist();
    }

    /** Append the state to the durable chain. */
    method Persist() returns (r: Result<()>)
      requires Inv(plan, world) && Appendable(plan, world.ledger, state, world.made)
      modifies world
      ensures Inv(plan, world) && old(world.ledger) <= world.ledger
      ensures world.trace == old(world.trace) && world.basis == old(world.basis) && world.made == old(world.made)
      ensures r.Ok? ==> world.ledger == old(world.ledger) + [state]
    {
      hide WriteAhead, Chained, Appendable;
      ChainedAppend(plan, world.ledger, state, world.made);
      r := world.Commit(state);
      MoreReceipts(plan, world.trace, world.basis, old(world.ledger), world.ledger);
    }

    /** The terminal receipt of a definite conflict. */
    method CommitConflict()
      requires Running() && world.Last() == Some(state) && state.status in {PolicyIntent, ConfigIntent, WorkerIntent}
      modifies this, world
      ensures Inv(plan, world) && old(world.ledger) <= world.ledger
    {
      hide WriteAhead, Chained;
      state := state.(status := Conflict);
      assert OwnsUids(plan, state, world.made);
      var _ := Persist();
    }

    /** The claim, the volume, the storage class and the earlier Pods are as reviewed;
        the answer is whether the target claim is bound. */
    method CheckSourceTarget() returns (r: Result<bool>)
      requires Running()
      modifies world
      ensures Running() && world.ledger == old(world.ledger) && world.trace == old(world.trace) && world.basis == old(world.basis)
    {
      var check := world.Check();
      Moved();
      var _ :- check;
      var bound: bool := *;
      var _ :- Require(plan.config.Some? ==> bound);
      r := Ok(bound);
    }

    method Read(key: Key) returns (r: Result<Option<Obj>>)
      requires Running()
      modifies world
      ensures Running() && world.ledger == old(world.ledger) && world.trace == old(world.trace) && world.basis == old(world.basis)
      ensures r.Ok? ==> r.value == if key in world.objects then Some(world.objects[key]) else None
    {
      r := world.Get(key);
      Moved();
    }

    /** The creates so far were sent from receipts of lower rank than any later intent. */
    lemma EarlierPosts(rank: nat)
      requires Running() && Rank(state.status) < rank
      ensures NothingSentAt(rank, plan, world.trace, world.basis)
    {
      forall p | 0 <= p < |world.trace| && world.trace[p].PostSent? && world.trace[p].post.nonce == plan.operation
                 && world.basis[p].Some?
        ensures Rank(world.basis[p].value.status) < rank
      {
        var i :| 0 <= i < |world.ledger| && world.ledger[i] == world.basis[p].value;
        ChainsMoveForward(plan, world.ledger, world.made, i, |world.ledger| - 1);
      }
    }

    method Send(item: Item) returns (reply: Reply)
      requires Running() && world.Last() == Some(state) && item in plan.Items()
      requires Authorizes(plan, state, Desired(plan, item))
      requires NothingSentAt(Rank(state.status), plan, world.trace, world.basis)
      modifies world
      ensures Running() && world.ledger == old(world.ledger)
      ensures reply.Admitted? ==> item.target in world.objects && world.objects[item.target] == reply.obj
    {
      hide WriteAhead, Authorizes, NothingSentAt, Acceptable, MayFollow;
      SendKeepsWriteAhead(plan, state, Desired(plan, item), world.trace, world.basis, world.ledger);
      reply := world.Create(Desired(plan, item));
      ChainedGrows(plan, world.ledger, old(world.made), world.made);
    }

    /** Create one object from its starting status. */
    method CreateObject(item: Item) returns (r: Result<Option<Obj>>)
      requires Running() && item in plan.Items() && state.status == Start(plan, item.role)
      modifies this, world
      ensures Inv(plan, world) && old(world.ledger) <= world.ledger
      ensures r.Ok? ==> Running() && state == old(state).(status := Intent(item.role))
      ensures r.Ok? ==> r.value == if item.target in world.objects then Some(world.objects[item.target]) else None
    {
      hide WriteAhead, NothingSentAt, MayFollow, Chained, OwnsUids;
      var _ :- CheckSourceTarget();
      RankGap(plan, item.role);
      EarlierPosts(Rank(Intent(item.role)));
      var _ :- Commit(Intent(item.role));
      var reply := Send(item);
      if reply.Gone? {
        return Err(Died);
      } else if reply.AlreadyExists? {
        CommitConflict();
        return Err(Raised);
      } else if reply.Admitted? {
        return Ok(Some(reply.obj));
      }
      r := Read(item.target);
    }

    /** The object, created if it is its turn, is ours and as desired. */
    method Obtain(item: Item) returns (r: Result<Obj>)
      requires Running() && item in plan.Items()
      modifies this, world
      ensures Inv(plan, world) && old(world.ledger) <= world.ledger
      ensures r.Ok? ==> && Running()
                        && state == old(state).(status := if old(state).status == Start(plan, item.role)
                                                          then Intent(item.role) else old(state).status)
                        && item.target in world.objects && world.objects[item.target] == r.value
                        && r.value.mark == Ours(plan.operation)
                        && (state.Uid(item.role).None? || state.Uid(item.role) == Some(r.value.uid))
    {
      hide Inv, MayFollow, OwnsUids, Acceptable;
      Guarded();
      var observed :- Read(item.target);
      if state.status == Start(plan, item.role) {
        var _ :- Require(observed.None?);
        observed :- CreateObject(item);
      }
      var _ :- Require(observed.Some? && observed.value.mark == Ours(plan.operation) && observed.value.body == item.desired);
      var _ :- Require(state.Uid(item.role).None? || state.Uid(item.role) == Some(observed.value.uid));
      r := Ok(observed.value);
    }

    lemma Guarded()
      requires Running()
      ensures Inv(plan, world)
    {
    }

    /** See one object through: obtained, then bound as ours. */
    method Settle(item: Item) returns (r: Result<()>)
      requires Running() && item in plan.Items()
      requires Rank(Start(plan, item.role)) <= Rank(state.status)
      modifies this, world
      ensures Inv(plan, world) && old(world.ledger) <= world.ledger
      ensures r.Ok? ==> Running() && Rank(Completed(item.role)) <= Rank(state.status) && !state.status.Reserved?
      ensures r.Ok? ==> (old(state).status.Verified? ==> state.status.Verified?)
    {
      hide WriteAhead, NothingSentAt, MayFollow, Chained, OwnsUids, Authorizes, Desired, Keeps;
      var observed :- Obtain(item);
      Own(item, observed);
      r := Complete(item.role);
    }

    /** An object that was intended is now bound: say so durably. */
    method Complete(role: Role) returns (r: Result<()>)
      requires Running() && Rank(Start(plan, role)) <= Rank(state.status) && state.status != Start(plan, role)
      requires state.status == Intent(role) ==> Acceptable(plan, state.(status := Completed(role)))
      modifies this, world
      ensures Inv(plan, world) && old(world.ledger) <= world.ledger
      ensures r.Ok? ==> Running() && Rank(Completed(role)) <= Rank(state.status) && !state.status.Reserved?
      ensures r.Ok? ==> (old(state).status.Verified? ==> state.status.Verified?)
    {
      hide WriteAhead, NothingSentAt, MayFollow, Chained, OwnsUids, Authorizes;
      if state.status == Intent(role) {
        r := Commit(Completed(role));
      } else {
        r := Ok(());
      }
    }

    method Own(item: Item, observed: Obj)
      requires Running() && item in plan.Items()
      requires item.target in world.objects && world.objects[item.target] == observed && observed.mark == Ours(plan.operation)
      requires state.Uid(item.role).None? || state.Uid(item.role) == Some(observed.uid)
      modifies this
      ensures Running() && state == old(state).Bind(item.role, observed.uid)
    {
      state := state.Bind(item.role, observed.uid);
    }

    /** One advance, up to its first exception. */
    method Execute() returns (r: Result<()>)
      requires Running()
      modifies this, world
      ensures Inv(plan, world) && old(world.ledger) <= world.ledger
      ensures r.Ok? ==> world.Last() == Some(state) && (state.status.AwaitingCheck? || state.status.Verified?)
    {
      hide WriteAhead, NothingSentAt, MayFollow, Chained, OwnsUids, Authorizes;
      var _ :- CheckSourceTarget();
      if state.status.Reserved? {
        var early :- Read(plan.worker.target);
        var _ :- Require(early.None?);
      }
      var _ :- Settle(plan.policy);
      if plan.config.Some? {
        var _ :- Settle(plan.config.value);
      }
      var _ :- Settle(plan.worker);
      r := Conclude();
    }

    /** Judge the Pod's phase and, once it succeeded, its completion. */
    method Conclude() returns (r: Result<()>)
      requires Running() && Rank(state.status) >= 6
      modifies this, world
      ensures Inv(plan, world) && old(world.ledger) <= world.ledger
      ensures r.Ok? ==> world.Last() == Some(state) && (state.status.AwaitingCheck? || state.status.Verified?)
      ensures r.Ok? && old(state).status.Verified? ==> state.status.Verified?
    {
      hide WriteAhead, NothingSentAt, MayFollow, Chained, OwnsUids, Authorizes;
      var failed: bool := *;
      var _ :- Require(!failed);
      var succeeded: bool := *;
      if !succeeded {
        var _ :- Require(!state.status.Verified?);
        r := Commit(AwaitingCheck);
        return;
      }
      var completed: bool := *;
      var _ :- Require(completed);
      var bound :- CheckSourceTarget();
      var _ :- Require(bound);
      r := Commit(Verified);
    }
  }

  lemma RankGap(plan: Plan, role: Role)
    requires plan.config.None? ==> !role.Config?
    ensures Rank(Start(plan, role)) < Rank(Intent(role)) < Rank(Completed(role))
  {
  }

  /** One call of `advance_consumer`, fresh or from the last durable receipt. */
  method AdvanceConsumer(world: World, plan: Plan) returns (r: Result<Receipt>)
    requires Inv(plan, world)
    modifies world
    ensures Inv(plan, world) && old(world.ledger) <= world.ledger
    ensures r.Ok? ==> world.Last() == Some(r.value) && (r.value.status.AwaitingCheck? || r.value.status.Verified?)
  {
    var state := Receipt(plan, Reserved, None, None, None);
    if world.ledger != [] {
      state := world.ledger[|world.ledger| - 1];
      if !Acceptable(plan, state) {
        return Err(Raised);
      }
      ChainsMoveForward(plan, world.ledger, world.made, |world.ledger| - 1, |world.ledger| - 1);
    }
    var operation := new Operation(world, plan, state);
    var outcome := operation.Execute();
    r := if outcome.Ok? then Ok(operation.state) else Err(outcome.fault);
  }

  /** Any number of advances, with the rest of the world moving in between. */
  method AdvanceAgainAndAgain(world: World, plan: Plan)
    requires Inv(plan, world)
    modifies world
    ensures Inv(plan, world) && old(world.ledger) <= world.ledger
  {
    var runs: nat := *;
    while runs > 0
      invariant Inv(plan, world) && old(world.ledger) <= world.ledger
    {
      ghost var made := world.made;
      world.Interfere();
      ChainedGrows(plan, world.ledger, made, world.made);
      var _ := AdvanceConsumer(world, plan);
      runs := runs - 1;
    }
  }

  // --------------------------------------------------------------- what follows

  /** Each object of the operation is requested at most once over any chain. */
  lemma EachObjectRequestedOnce(plan: Plan, world: World, p: nat, q: nat)
    requires Inv(plan, world) && p < q < |world.trace|
    requires world.trace[p].PostSent? && world.trace[p].post.nonce == plan.operation
    requires world.trace[q].PostSent? && world.trace[q].post.nonce == plan.operation
    ensures world.trace[p].post.key != world.trace[q].post.key
  {
    assert Authorizes(plan, world.basis[p].value, world.trace[p].post);
    assert Authorizes(plan, world.basis[q].value, world.trace[q].post);
  }

  /** The Pod is requested only from a durable receipt that names the policy, and for
      the initializer the configuration, as objects our own creates made. */
  lemma WorkerComesLast(plan: Plan, world: World, p: nat)
    requires Inv(plan, world) && p < |world.trace| && world.trace[p] == PostSent(Desired(plan, plan.worker))
    ensures world.basis[p].Some? && world.basis[p].value in world.ledger
    ensures var r := world.basis[p].value;
            && r.policyUid.Some? && r.policyUid.value in world.made
            && world.made[r.policyUid.value].key == plan.policy.target
    ensures plan.config.Some? ==>
              var r := world.basis[p].value;
              && r.configUid.Some? && r.configUid.value in world.made
              && world.made[r.configUid.value].key == plan.config.value.target
  {
    var r := world.basis[p].value;
    assert Authorizes(plan, r, world.trace[p].post);
    var i :| 0 <= i < |world.ledger| && world.ledger[i] == r;
    ChainsMoveForward(plan, world.ledger, world.made, i, i);
    assert plan.policy in plan.Items();
  }
}
