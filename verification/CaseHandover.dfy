/** The handover of the bootstrapped Case objects to Flux: the ownership nonces go
    one by one, each behind a durable intent; then the Kustomization is unsuspended. */
module CaseHandover {
  import opened Wrappers
  import opened ApiServer
  import opened Selectors
  import FluxTracking
  import Bootstrap = CaseBootstrap

  datatype Status = Reserved | RemovingNonces | UnsuspendIntent | FluxReady | Stopped

  datatype Progress = Progress(bootstrap: Bootstrap.Citation, plan: Digest<Bootstrap.Plan>,
                               status: Status, removed: seq<nat>, pending: Option<nat>,
                               unsuspendIntent: bool, fluxReady: bool)

  type World = Cluster<Progress>

  /** What is handed over: the plan, and the complete bootstrap receipt for it. */
  datatype Estate = Estate(plan: Bootstrap.Plan, bootstrap: Bootstrap.Receipt) {
    predicate Handable() {
      && |plan| == 19 && Bootstrap.Complete(plan, bootstrap) && bootstrap.status.VerifiedSuspended?
      && (forall r <- bootstrap.objects :: r.uid.Some?)
    }

    function Uid(i: nat): nat
      requires Handable() && i < 19
    {
      bootstrap.objects[i].uid.value
    }
  }

  predicate FirstNumbers(s: seq<nat>) {
    |s| <= 19 && forall i :: 0 <= i < |s| ==> s[i] == i
  }

  /** What recovery demands of a receipt, beyond its checksum. */
  predicate Acceptable(estate: Estate, p: Progress) {
    && p.bootstrap == Bootstrap.ReceiptSha(estate.bootstrap) && p.plan == Sha(estate.plan)
    && FirstNumbers(p.removed)
    && (p.pending.Some? ==> p.pending.value == |p.removed| < 19)
    && (p.unsuspendIntent ==> |p.removed| == 19)
  }

  /** How one durable receipt may follow another: the removed prefix grows by at
      most the one index that was durably pending. */
  predicate MayFollow(earlier: Progress, later: Progress) {
    && |earlier.removed| <= |later.removed| <= |earlier.removed| + 1
    && (|earlier.removed| < |later.removed| ==> earlier.pending == Some(|earlier.removed|))
    && (earlier.unsuspendIntent ==> later.unsuspendIntent)
  }

  /** A patch that a receipt entitles us to send. */
  predicate Entitles(estate: Estate, p: Progress, e: Event)
    requires estate.Handable()
  {
    && e.PatchSent?
    && match e.change
       case DropNonce(nonce) =>
         && p.status.RemovingNonces? && p.pending.Some? && p.pending.value < 19 && nonce == estate.bootstrap.nonce
         && e.key == estate.plan[p.pending.value].target && e.uid == estate.Uid(p.pending.value)
       case Unsuspend =>
         && p.status.UnsuspendIntent? && p.unsuspendIntent && |p.removed| == 19
         && e.key == estate.plan[18].target && e.uid == estate.Uid(18)
  }

  // ------------------------------------------------------------- Flux labels

  /** The labels that Flux may put on a Case object. */
  const CASE_PAIR: Labels := map[FluxTracking.NAME_LABEL := "roebel-case-runtime",
                                 FluxTracking.NAMESPACE_LABEL := FluxTracking.FLUX_NAMESPACE]

  function StripLabel(labels: Labels, key: string, value: string): Result<Labels> {
    if key !in labels then Ok(labels) else if labels[key] != value then Err(Raised) else Ok(labels - {key})
  }

  /** `without_case_flux_labels`, on the labels: one after the other. */
  function StripCaseLabels(labels: Labels): Result<Labels> {
    var rest :- StripLabel(labels, FluxTracking.NAME_LABEL, CASE_PAIR[FluxTracking.NAME_LABEL]);
    StripLabel(rest, FluxTracking.NAMESPACE_LABEL, CASE_PAIR[FluxTracking.NAMESPACE_LABEL])
  }

  /** The comparison behind it looks past those two labels and no other: an object
      passes if and only if every other label is as desired, and each of the two has its
      expected value or is missing. Unlike for the participant gateway, one of them may
      be missing alone. */
  lemma CaseLabelsAreLookedPast(live: Labels, desired: Labels)
    requires CASE_PAIR.Keys !! desired.Keys
    ensures StripCaseLabels(live) == Ok(desired) <==>
            && (forall k :: k !in CASE_PAIR ==> FluxTracking.AgreeAt(live, desired, k))
            && (forall k <- CASE_PAIR :: k in live ==> live[k] == CASE_PAIR[k])
  {
    var rest := live - CASE_PAIR.Keys;
    StrippedInTurn(live);
    RestAgrees(live, desired, rest);
  }

  lemma StrippedInTurn(live: Labels)
    ensures StripCaseLabels(live) ==
            if forall k <- CASE_PAIR :: k in live ==> live[k] == CASE_PAIR[k] then Ok(live - CASE_PAIR.Keys) else Err(Raised)
  {
    var name, namespace := FluxTracking.NAME_LABEL, FluxTracking.NAMESPACE_LABEL;
    assert |name| != |namespace|;
    assert name in CASE_PAIR && namespace in CASE_PAIR;
    assert live - {name} - {namespace} == live - CASE_PAIR.Keys;
    assert name !in live ==> live - {namespace} == live - CASE_PAIR.Keys;
    assert namespace !in live ==> live - {name} == live - CASE_PAIR.Keys;
    assert name !in live && namespace !in live ==> live == live - CASE_PAIR.Keys;
  }

  lemma RestAgrees(live: Labels, desired: Labels, rest: Labels)
    requires CASE_PAIR.Keys !! desired.Keys && rest == live - CASE_PAIR.Keys
    ensures rest == desired <==> forall k :: k !in CASE_PAIR ==> FluxTracking.AgreeAt(live, desired, k)
  {
    if rest == desired {
      forall k | k !in CASE_PAIR
        ensures FluxTracking.AgreeAt(live, desired, k)
      {
        assert k in live <==> k in rest;
      }
    }
  }

  /** The same on the abstract body: labels that are not the expected ones are refused. */
  function WithoutFluxLabels(body: Body): Result<Body> {
    if body.tracking.Mislabelled? then Err(Raised) else Ok(body.(tracking := Untracked))
  }

  /** The desired body of an object once the Kustomization runs. */
  function Released(item: Bootstrap.Item): Body {
    if item.target.kind.KustomizationKind? then item.desired.(suspended := false) else item.desired
  }

  /** The object is ours by UID, carries no nonce and is what the plan wants. */
  predicate HandedOver(estate: Estate, i: nat, o: Obj)
    requires estate.Handable() && i < 19
  {
    o.uid == estate.Uid(i) && o.mark.Unmarked? && WithoutFluxLabels(o.body) == Ok(Released(estate.plan[i]))
  }

  /** A read that found object `i` handed over. */
  predicate ShowsHandedOver(estate: Estate, i: nat, s: Sighting, at: nat)
    requires estate.Handable() && i < 19
  {
    s.key == estate.plan[i].target && s.at == at && s.found.Some? && HandedOver(estate, i, s.found.value)
  }

  ghost predicate WasSeen(estate: Estate, i: nat, sightings: seq<Sighting>, at: nat)
    requires estate.Handable() && i < 19
  {
    exists s <- sightings :: ShowsHandedOver(estate, i, s, at)
  }

  /** The first `n` objects were all seen handed over after the same last request. */
  ghost predicate SeenHandedOver(estate: Estate, n: nat, sightings: seq<Sighting>, at: nat)
    requires estate.Handable() && n <= 19
  {
    forall i :: 0 <= i < n ==> WasSeen(estate, i, sightings, at)
  }

  ghost predicate Chained(estate: Estate, ledger: seq<Progress>) {
    if ledger == [] then true else
      var n := |ledger| - 1;
      && Chained(estate, ledger[..n])
      && Acceptable(estate, ledger[n])
      && (if n == 0 then ledger[n].removed == [] && !ledger[n].unsuspendIntent else MayFollow(ledger[n - 1], ledger[n]))
  }

  ghost predicate WriteAhead(estate: Estate, trace: seq<Event>, basis: seq<Option<Progress>>, ledger: seq<Progress>)
    requires estate.Handable() && |trace| == |basis|
  {
    forall p :: 0 <= p < |trace| && trace[p].PatchSent? ==>
                  basis[p].Some? && basis[p].value in ledger && Entitles(estate, basis[p].value, trace[p])
  }

  ghost predicate SeenBy(estate: Estate, sightings: seq<Sighting>, sent: nat)
    requires estate.Handable()
  {
    exists at: nat :: at <= sent && SeenHandedOver(estate, 19, sightings, at)
  }

  /** What stands behind a receipt that was written after so many requests: if it says
      ready, all objects were read after the last of them; if it only keeps the flag,
      they were read at some earlier time. */
  ghost predicate Backed(estate: Estate, p: Progress, sightings: seq<Sighting>, sent: nat)
    requires estate.Handable()
  {
    && (p.status.FluxReady? ==> SeenHandedOver(estate, 19, sightings, sent))
    && (p.fluxReady ==> SeenBy(estate, sightings, sent))
  }

  /** Every receipt is backed; and while the last one says ready, no request follows. */
  ghost predicate ReadyWasSeen(estate: Estate, ledger: seq<Progress>, upTo: seq<nat>, sightings: seq<Sighting>, sent: nat)
    requires estate.Handable() && |upTo| == |ledger|
  {
    && (forall j :: 0 <= j < |ledger| ==> Backed(estate, ledger[j], sightings, upTo[j]))
    && (ledger != [] && ledger[|ledger| - 1].status.FluxReady? ==> upTo[|ledger| - 1] == sent)
  }

  ghost predicate Inv(estate: Estate, world: World)
    requires estate.Handable()
    reads world
  {
    && world.Valid()
    && Chained(estate, world.ledger)
    && WriteAhead(estate, world.trace, world.basis, world.ledger)
    && ReadyWasSeen(estate, world.ledger, world.upTo, world.sightings, |world.trace|)
  }

  lemma MoreSightings(estate: Estate, n: nat, few: seq<Sighting>, many: seq<Sighting>, at: nat)
    requires estate.Handable() && n <= 19 && few <= many && SeenHandedOver(estate, n, few, at)
    ensures SeenHandedOver(estate, n, many, at)
  {
    forall i | 0 <= i < n
      ensures WasSeen(estate, i, many, at)
    {
      assert WasSeen(estate, i, few, at);
      var s :| s in few && ShowsHandedOver(estate, i, s, at);
      assert s in many;
    }
  }

  lemma StillBacked(estate: Estate, p: Progress, few: seq<Sighting>, many: seq<Sighting>, sent: nat, next: nat)
    requires estate.Handable() && few <= many && Backed(estate, p, few, sent) && sent <= next
    requires p.status.FluxReady? ==> next == sent
    ensures Backed(estate, p, many, next)
  {
    if p.status.FluxReady? {
      MoreSightings(estate, 19, few, many, sent);
    }
    if p.fluxReady {
      var at: nat :| at <= sent && SeenHandedOver(estate, 19, few, at);
      MoreSightings(estate, 19, few, many, at);
    }
  }

  lemma StillSeen(estate: Estate, ledger: seq<Progress>, upTo: seq<nat>, few: seq<Sighting>, many: seq<Sighting>, sent: nat, next: nat)
    requires estate.Handable() && |upTo| == |ledger| && few <= many && ReadyWasSeen(estate, ledger, upTo, few, sent)
    requires next == sent || (ledger != [] && !ledger[|ledger| - 1].status.FluxReady?)
    ensures ReadyWasSeen(estate, ledger, upTo, many, next)
  {
    forall j | 0 <= j < |ledger|
      ensures Backed(estate, ledger[j], many, upTo[j])
    {
      StillBacked(estate, ledger[j], few, many, upTo[j], upTo[j]);
    }
  }

  lemma FirstReceipt(estate: Estate, receipt: Progress)
    requires Acceptable(estate, receipt) && receipt.removed == [] && !receipt.unsuspendIntent
    ensures Chained(estate, [receipt])
  {
    assert [receipt][..0] == [];
  }

  lemma MoreReceipts(estate: Estate, trace: seq<Event>, basis: seq<Option<Progress>>, few: seq<Progress>, many: seq<Progress>)
    requires estate.Handable() && |trace| == |basis| && WriteAhead(estate, trace, basis, few) && few <= many
    ensures WriteAhead(estate, trace, basis, many)
  {
    assert forall r <- few :: r in many;
  }

  class Handover {
    const world: World
    const estate: Estate
    var state: Progress

    ghost predicate Running()
      reads this, world
    {
      && estate.Handable() && Inv(estate, world) && world.ledger != []
      && Acceptable(estate, state) && MayFollow(world.ledger[|world.ledger| - 1], state)
      && Backed(estate, state, world.sightings, |world.trace|)
    }

    /** The last durable receipt says what the memory says. */
    ghost predicate Synced()
      reads this, world
    {
      Running() && world.Last() == Some(state)
    }

    constructor (world: World, estate: Estate, state: Progress)
      ensures this.world == world && this.estate == estate && this.state == state
    {
      this.world, this.estate, this.state := world, estate, state;
    }

    method Commit() returns (r: Result<()>)
      requires Running()
      modifies world
      ensures Running() && old(world.ledger) <= world.ledger && world.trace == old(world.trace)
      ensures world.sightings == old(world.sightings)
      ensures r.Ok? ==> Synced()
    {
      r := world.Commit(state);
      assert (old(world.ledger) + [state])[..|old(world.ledger)|] == old(world.ledger);
    }

    /** Make the very first receipt durable. */
    method Reserve() returns (r: Result<()>)
      requires estate.Handable() && Inv(estate, world) && world.ledger == []
      requires Acceptable(estate, state) && state.removed == [] && !state.unsuspendIntent
      requires !state.fluxReady && state.status.Reserved?
      modifies world
      ensures Inv(estate, world) && old(world.ledger) <= world.ledger
      ensures r.Ok? ==> Synced()
    {
      hide WriteAhead, Chained;
      FirstReceipt(estate, state);
      assert old(world.ledger) + [state] == [state];
      r := world.Commit(state);
      MoreReceipts(estate, world.trace, world.basis, old(world.ledger), world.ledger);
    }

    method Check() returns (r: Result<()>)
      requires Running()
      modifies world
      ensures Running() && world.ledger == old(world.ledger) && world.trace == old(world.trace)
      ensures world.sightings == old(world.sightings)
    {
      r := world.Check();
    }

    twostate lemma Saw()
      requires old(Running()) && world.Valid() && state == old(state) && old(world.sightings) <= world.sightings
      requires world.trace == old(world.trace) && world.basis == old(world.basis) && world.ledger == old(world.ledger)
      requires world.upTo == old(world.upTo)
      ensures Running()
    {
      StillSeen(estate, world.ledger, world.upTo, old(world.sightings), world.sightings, |world.trace|, |world.trace|);
      StillBacked(estate, state, old(world.sightings), world.sightings, |world.trace|, |world.trace|);
    }

    /** Read object `i` and require that it is still the owned one. */
    method Live(i: nat) returns (r: Result<Obj>)
      requires Running() && i < 19
      modifies world
      ensures Running() && world.ledger == old(world.ledger) && world.trace == old(world.trace)
      ensures old(world.sightings) <= world.sightings
      ensures r.Ok? ==> r.value.uid == estate.Uid(i)
      ensures r.Ok? ==> Sighting(estate.plan[i].target, Some(r.value), |world.trace|) in world.sightings
    {
      var answer := world.Get(estate.plan[i].target);
      Saw();
      var live :- answer;
      r := if live.Some? && live.value.uid == estate.Uid(i) then Ok(live.value) else Err(Raised);
      assert r.Ok? ==> world.sightings[|world.sightings| - 1] == Sighting(estate.plan[i].target, Some(r.value), |world.trace|);
    }

    /** Send a patch that the last durable receipt entitles us to. */
    method Patch(i: nat, version: nat, change: Change) returns (r: Result<Obj>)
      requires Synced() && i < 19
      requires Entitles(estate, state, PatchSent(estate.plan[i].target, estate.Uid(i), change))
      modifies world
      ensures Synced() && world.ledger == old(world.ledger)
    {
      var thrown;
      r, thrown := world.Patch(estate.plan[i].target, estate.Uid(i), version, change);
      StillSeen(estate, world.ledger, world.upTo, old(world.sightings), world.sightings, |old(world.trace)|, |world.trace|);
      StillBacked(estate, state, old(world.sightings), world.sightings, |old(world.trace)|, |world.trace|);
    }

    /** Replace the state by one that may follow the last durable receipt. */
    method Become(next: Progress)
      requires Running() && Acceptable(estate, next) && MayFollow(world.ledger[|world.ledger| - 1], next)
      requires Backed(estate, next, world.sightings, |world.trace|)
      modifies this
      ensures Running() && state == next
    {
      state := next;
    }

    /** The object is ours without its nonce, and as desired: exactly until the release
        of Flux is intended, and from then on whether or not it is suspended and
        labelled by Flux. */
    predicate StillReleased(i: nat, o: Obj)
      requires estate.Handable() && i < 19
      reads this
    {
      var desired := estate.plan[i].desired;
      && o.uid == estate.Uid(i) && o.mark.Unmarked?
      && if !state.unsuspendIntent then o.body == desired
         else WithoutFluxLabels(o.body) == Ok(if estate.plan[i].target.kind.KustomizationKind?
                                              then desired.(suspended := o.body.suspended) else desired)
    }

    /** After the last request, object `i` was read like this. */
    ghost predicate WasRead(i: nat, o: Obj)
      requires estate.Handable() && i < 19
      reads world
    {
      Sighting(estate.plan[i].target, Some(o), |world.trace|) in world.sightings
    }

    /** An object whose nonce is gone must stay that way. */
    method Recheck(i: nat) returns (r: Result<()>)
      requires Running() && i < 19
      modifies world
      ensures Running() && world.ledger == old(world.ledger) && world.trace == old(world.trace)
      ensures r.Ok? ==> exists o :: WasRead(i, o) && StillReleased(i, o)
    {
      hide Inv, Acceptable, MayFollow, Backed;
      var item := estate.plan[i];
      var live :- Live(i);
      var _ :- Require(live.mark.Unmarked?);
      var desired := item.desired;
      if item.target.kind.KustomizationKind? && state.unsuspendIntent {
        desired := desired.(suspended := live.body.suspended);
      }
      var body := live.body;
      if state.unsuspendIntent {
        body :- WithoutFluxLabels(live.body);
      }
      r := Require(body == desired);
      assert WasRead(i, live);
    }

    /** Take the nonce off the next object. Without a nonce to take, the object is
        accepted only if exactly this removal was already intended. */
    method RemoveNonce() returns (r: Result<()>)
      requires Synced() && |state.removed| < 19
      modifies this, world
      ensures Running() && old(world.ledger) <= world.ledger
      ensures r.Ok? ==> Synced() && |state.removed| == |old(state.removed)| + 1
    {
      hide Inv, Acceptable, MayFollow, Backed;
      var i := |state.removed|;
      var item := estate.plan[i];
      var live :- Live(i);
      if live.mark.Unmarked? {
        var _ :- Require(state.pending == Some(i));
        var _ :- Require(live.body == item.desired);
      } else {
        var _ :- Require(live.mark == Ours(estate.bootstrap.nonce));
        var _ :- Require(live.body == item.desired);
        var _ :- StripNonce(i, live.version);
      }
      r := Strike();
    }

    /** Count the pending removal as done, durably. */
    method Strike() returns (r: Result<()>)
      requires Synced() && state.pending == Some(|state.removed|)
      modifies this, world
      ensures Running() && old(world.ledger) <= world.ledger
      ensures r.Ok? ==> Synced() && |state.removed| == |old(state.removed)| + 1
    {
      Become(state.(removed := state.removed + [|state.removed|], pending := None));
      r := Commit();
    }

    /** The durable intent, the patch and the look at its effect. */
    method StripNonce(i: nat, version: nat) returns (r: Result<()>)
      requires Running() && i == |state.removed| < 19
      modifies this, world
      ensures Running() && old(world.ledger) <= world.ledger
      ensures r.Ok? ==> Synced() && state == old(state).(status := RemovingNonces, pending := Some(i))
      ensures r.Ok? ==> exists o :: WasRead(i, o) && o.uid == estate.Uid(i) && o.mark.Unmarked? && o.body == estate.plan[i].desired
    {
      var _ :- Intend(i);
      assert Entitles(estate, state, PatchSent(estate.plan[i].target, estate.Uid(i), DropNonce(estate.bootstrap.nonce)));
      hide Inv, Acceptable, MayFollow, Backed, Entitles;
      var _ :- Patch(i, version, DropNonce(estate.bootstrap.nonce));
      var after :- Live(i);
      r := Require(after.mark.Unmarked? && after.body == estate.plan[i].desired);
      assert WasRead(i, after);
    }

    /** Make the removal of exactly this nonce a durable intent. */
    method Intend(i: nat) returns (r: Result<()>)
      requires Running() && i == |state.removed| < 19
      modifies this, world
      ensures Running() && old(world.ledger) <= world.ledger && world.trace == old(world.trace)
      ensures r.Ok? ==> Synced() && state == old(state).(status := RemovingNonces, pending := Some(i))
    {
      Become(state.(status := RemovingNonces, pending := Some(i)));
      r := Commit();
    }

    /** Unsuspend the Kustomization, unless that was already done on intent. */
    method ReleaseFlux() returns (r: Result<()>)
      requires Synced() && |state.removed| == 19
      modifies this, world
      ensures Running() && old(world.ledger) <= world.ledger
      ensures r.Ok? ==> Synced() && |state.removed| == 19 && state.unsuspendIntent
    {
      var item := estate.plan[18];
      var _ :- Require(item.target.kind.KustomizationKind?);
      var _ :- Check();
      var live :- Live(18);
      if !live.body.suspended {
        r := Require(state.unsuspendIntent);
      } else {
        var _ :- Require(live.mark.Unmarked? && live.body == item.desired);
        Become(state.(status := UnsuspendIntent, unsuspendIntent := true));
        var _ :- Commit();
        var _ :- Patch(18, live.version, Unsuspend);
        r := Ok(());
      }
    }

    /** Poll the Kustomization until Flux reports the exact revision as applied. */
    method AwaitReconciliation() returns (r: Result<()>)
      requires Running()
      modifies world
      ensures Running() && world.ledger == old(world.ledger) && world.trace == old(world.trace)
    {
      hide Inv, Acceptable, MayFollow, Backed;
      var polls: nat := *;
      while polls > 0
        invariant Running() && world.ledger == old(world.ledger) && world.trace == old(world.trace)
      {
        var live :- Live(18);
        var _ :- Require(live.mark.Unmarked? && live.body == Released(estate.plan[18]));
        var ready: bool := *;
        if ready {
          return Ok(());
        }
        polls := polls - 1;
      }
      r := Err(Raised);
    }

    method VerifyFluxReady() returns (r: Result<()>)
      requires Running()
      modifies world
      ensures Running() && world.ledger == old(world.ledger) && world.trace == old(world.trace)
      ensures r.Ok? ==> SeenHandedOver(estate, 19, world.sightings, |world.trace|)
    {
      hide Inv, Acceptable, MayFollow, Backed;
      var _ :- AwaitReconciliation();
      for i := 0 to 19
        invariant Running() && world.ledger == old(world.ledger) && world.trace == old(world.trace)
        invariant SeenHandedOver(estate, i, world.sightings, |world.trace|)
      {
        ghost var before := world.sightings;
        var observed :- Live(i);
        var body :- WithoutFluxLabels(observed.body);
        var _ :- Require(observed.mark.Unmarked? && body == Released(estate.plan[i]));
        MoreSightings(estate, i, before, world.sightings, |world.trace|);
        assert ShowsHandedOver(estate, i, Sighting(estate.plan[i].target, Some(observed), |world.trace|), |world.trace|);
        assert WasSeen(estate, i, world.sightings, |world.trace|);
      }
      r := Check();
    }

    /** The body of a run, up to its first exception. */
    method Execute() returns (r: Result<()>)
      requires Synced()
      modifies this, world
      ensures Running() && old(world.ledger) <= world.ledger
      ensures r.Ok? ==> Synced() && state.fluxReady && state.status.FluxReady?
    {
      hide Inv, MayFollow;
      var _ :- Check();
      for i := 0 to 19
        invariant Synced() && old(world.ledger) <= world.ledger && i <= |state.removed|
      {
        if i < |state.removed| {
          var _ :- Recheck(i);
        } else {
          var _ :- RemoveNonce();
        }
      }
      var _ :- ReleaseFlux();
      var _ :- VerifyFluxReady();
      Finish();
      r := Commit();
    }

    /** Record that the run stopped; the receipts stay the boundary of recovery. */
    method Stop()
      requires Running()
      modifies this, world
      ensures Running() && old(world.ledger) <= world.ledger
    {
      Become(state.(status := Stopped));
      var _ := Commit();
    }

    method Finish()
      requires Synced() && SeenHandedOver(estate, 19, world.sightings, |world.trace|)
      modifies this
      ensures Running() && state.fluxReady && state.status.FluxReady?
    {
      Become(state.(status := FluxReady, fluxReady := true));
    }
  }

  /** One run of the handover, fresh or resumed from the last durable receipt.
      The bootstrap receipt must be acceptable, complete and verified. */
  method RunHandover(world: World, plan: Bootstrap.Plan, bootstrap: Sealed<Bootstrap.Receipt>) returns (r: Result<Progress>)
    requires |plan| == 19
    requires Estate(plan, bootstrap.body).Handable() ==> Inv(Estate(plan, bootstrap.body), world)
    modifies world
    ensures Estate(plan, bootstrap.body).Handable() ==> Inv(Estate(plan, bootstrap.body), world)
    ensures old(world.ledger) <= world.ledger
    ensures r.Ok? ==> Estate(plan, bootstrap.body).Handable() && world.Last() == Some(r.value) && r.value.status.FluxReady?
  {
    var estate := Estate(plan, bootstrap.body);
    var recovered := Bootstrap.BindRecovery(plan, bootstrap);
    if recovered.None? || !recovered.value.status.VerifiedSuspended? || !Bootstrap.Complete(plan, recovered.value) {
      return Err(Raised);
    }
    assert estate.Handable() by {
      forall record <- bootstrap.body.objects
        ensures record.uid.Some?
      {
        var i :| 0 <= i < |bootstrap.body.objects| && bootstrap.body.objects[i] == record;
        assert Bootstrap.AcceptableRecord(plan, bootstrap.body, i);
      }
    }
    r := RunEstate(world, estate);
  }

  /** Validate the prior receipt, or reserve a new one, and make the start durable. */
  method Begin(world: World, estate: Estate) returns (run: Handover, r: Result<()>)
    requires estate.Handable() && Inv(estate, world)
    modifies world
    ensures Inv(estate, world) && old(world.ledger) <= world.ledger
    ensures fresh(run) && run.world == world && run.estate == estate
    ensures r.Ok? ==> run.Synced()
  {
    if world.ledger == [] {
      var state := Progress(Bootstrap.ReceiptSha(estate.bootstrap), Sha(estate.plan), Reserved, [], None, false, false);
      run := new Handover(world, estate, state);
      r := run.Reserve();
    } else {
      var prior := world.ledger[|world.ledger| - 1];
      run := new Handover(world, estate, prior);
      if !Acceptable(estate, prior) {
        return run, Err(Raised);
      }
      var n := |world.ledger| - 1;
      assert world.upTo[n] in world.upTo;
      StillBacked(estate, prior, world.sightings, world.sightings, world.upTo[n], |world.trace|);
      r := run.Commit();
    }
  }

  method RunEstate(world: World, estate: Estate) returns (r: Result<Progress>)
    requires estate.Handable() && Inv(estate, world)
    modifies world
    ensures Inv(estate, world) && old(world.ledger) <= world.ledger
    ensures r.Ok? ==> world.Last() == Some(r.value) && r.value.status.FluxReady?
  {
    var run, begun := Begin(world, estate);
    var _ :- begun;
    var outcome := run.Execute();
    if outcome.Ok? {
      return Ok(run.state);
    } else if outcome.fault.Raised? {
      run.Stop();
    }
    r := Err(outcome.fault);
  }

  /** Any number of runs in a row, each ending in success, an exception or a crash. */
  method RunAgainAndAgain(world: World, estate: Estate)
    requires estate.Handable() && Inv(estate, world)
    modifies world
    ensures Inv(estate, world) && old(world.ledger) <= world.ledger
  {
    var runs: nat := *;
    while runs > 0
      invariant Inv(estate, world) && old(world.ledger) <= world.ledger
    {
      world.Interfere();
      var _ := RunEstate(world, estate);
      runs := runs - 1;
    }
  }

  // --------------------------------------------------------------- what follows

  /** Every receipt of a chain could be recovered from, and an index appears among
      the removed ones only after a receipt that durably intended exactly it. */
  lemma {:induction false} RemovalsWereIntended(estate: Estate, ledger: seq<Progress>, j: nat, i: nat)
    requires Chained(estate, ledger) && j < |ledger|
    ensures Acceptable(estate, ledger[j])
    ensures i < |ledger[j].removed| ==>
              exists k :: 0 <= k < j && ledger[k].pending == Some(i) && |ledger[k].removed| == i
  {
    var n := |ledger| - 1;
    if j < n {
      RemovalsWereIntended(estate, ledger[..n], j, i);
    } else if n > 0 {
      RemovalsWereIntended(estate, ledger[..n], n - 1, i);
      if |ledger[n - 1].removed| == i < |ledger[n].removed| {
        assert ledger[n - 1].pending == Some(i);
      }
    }
  }

  /** When the Kustomization is unsuspended, all nineteen removals and the intent
      are durable; when a nonce is taken off, exactly that removal is. */
  lemma PatchesFollowTheirReceipts(estate: Estate, world: World, p: nat)
    requires estate.Handable() && Inv(estate, world)
    requires p < |world.trace| && world.trace[p].PatchSent?
    ensures world.basis[p].Some? && world.basis[p].value in world.ledger
    ensures world.trace[p].change.Unsuspend? ==>
              && world.basis[p].value.unsuspendIntent
              && world.basis[p].value.removed == seq(19, i => i)
              && world.trace[p].key == estate.plan[18].target && world.trace[p].uid == estate.Uid(18)
    ensures world.trace[p].change.DropNonce? ==>
              && world.basis[p].value.pending.Some? && world.basis[p].value.pending.value < 19
              && world.trace[p].change.nonce == estate.bootstrap.nonce
              && var i := world.basis[p].value.pending.value;
              && world.basis[p].value.removed == seq(i, k => k)
              && world.trace[p].key == estate.plan[i].target && world.trace[p].uid == estate.Uid(i)
  {
    var receipt := world.basis[p].value;
    var n :| 0 <= n < |world.ledger| && world.ledger[n] == receipt;
    RemovalsWereIntended(estate, world.ledger, n, 0);
  }

  /** A ready handover means: after the last of all the requests that had been sent when
      the receipt became durable, every owned object was read with its recorded UID,
      without a nonce, exactly as desired. A receipt that only keeps the ready flag, as
      after a resumed run that stopped, has such a round of reads at some earlier time. */
  lemma ReadyMeansHandedOver(estate: Estate, world: World, j: nat) returns (at: nat)
    requires estate.Handable() && Inv(estate, world)
    requires j < |world.ledger| && (world.ledger[j].fluxReady || world.ledger[j].status.FluxReady?)
    ensures at <= world.upTo[j] <= |world.trace| && (world.ledger[j].status.FluxReady? ==> at == world.upTo[j])
    ensures forall i :: 0 <= i < 19 ==> WasSeen(estate, i, world.sightings, at)
  {
    assert Backed(estate, world.ledger[j], world.sightings, world.upTo[j]);
    at := world.upTo[j];
    if !world.ledger[j].status.FluxReady? {
      at :| at <= world.upTo[j] && SeenHandedOver(estate, 19, world.sightings, at);
    }
    assert SeenHandedOver(estate, 19, world.sightings, at);
    assert world.upTo[j] in world.upTo;
  }
}
