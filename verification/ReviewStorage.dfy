/** Provisioning of the retained target volume for the review migration: one claim
    is created, and its bound volume is switched from Delete to Retain. The
    coordinator works through a transport that has its own closed guard. */
module ReviewStorage {
  import opened Wrappers

  // -------------------------------------------------------------- the objects

  datatype Phase = Pending | Bound | OtherPhase

  /** A claim as read. `uid` and `version` are `None` when malformed. */
  datatype Claim = Claim(name: string, uid: Option<nat>, version: Option<nat>, terminating: bool,
                         owner: Option<nat>, labelled: bool, spec: nat, extraOptions: bool,
                         volumeName: Option<string>, phase: Phase)

  datatype Policy = Delete | Retain | OtherPolicy

  /** A volume as read. `shaped` collects its class, mode, access, capacity and driver;
      `refersTo` is the UID of the claim in our namespace and name it refers to. */
  datatype Volume = Volume(name: string, uid: Option<nat>, version: Option<nat>, terminating: bool,
                           refersTo: Option<nat>, shaped: bool, policy: Policy, phase: Phase)

  datatype Source = Source(claimName: string, claimUid: nat, volumeName: string)

  datatype Plan = Plan(operation: nat, source: Source, spec: nat)

  const TARGET_NAME := "roebel-case-steward-review-state-v1"

  datatype Identity = Identity(uid: nat, version: nat)

  function IdentityOf(uid: Option<nat>, version: Option<nat>, terminating: bool): (r: Result<Identity>)
    ensures r.Ok? <==> uid.Some? && version.Some? && !terminating
    ensures r.Ok? ==> r.value == Identity(uid.value, version.value)
    ensures r.Err? ==> r.fault.Raised?
  {
    if uid.Some? && version.Some? && !terminating then Ok(Identity(uid.value, version.value)) else Err(Raised)
  }

  /** `_claim`: the claim is the named one, in every reviewed respect. */
  function CheckClaim(plan: Plan, claim: Option<Claim>, name: string, owned: bool): (r: Result<Identity>)
    ensures r.Ok? ==> claim.Some? && claim.value.name == name && claim.value.uid == Some(r.value.uid)
    ensures r.Ok? && owned ==> claim.value.owner == Some(plan.operation) && claim.value.labelled
    ensures r.Err? ==> r.fault.Raised?
  {
    if claim.None? || claim.value.name != name then Err(Raised)
    else if owned && (claim.value.owner != Some(plan.operation) || !claim.value.labelled) then Err(Raised)
    else if claim.value.extraOptions || claim.value.spec != plan.spec then Err(Raised)
    else IdentityOf(claim.value.uid, claim.value.version, claim.value.terminating)
  }

  function OwnedClaim(plan: Plan, claim: Option<Claim>): Result<Identity> {
    CheckClaim(plan, claim, TARGET_NAME, true)
  }

  /** `_source`: the original claim is still there and still bound as it was. */
  predicate SourceIntact(plan: Plan, claim: Option<Claim>) {
    var identity := CheckClaim(plan, claim, plan.source.claimName, false);
    && identity.Ok? && identity.value.uid == plan.source.claimUid
    && claim.value.phase.Bound? && claim.value.volumeName == Some(plan.source.volumeName)
  }

  /** `_volume`: the volume is the bound volume of this claim. */
  function CheckVolume(claim: Claim, volume: Option<Volume>): (r: Result<Identity>)
    ensures r.Ok? ==>
              && volume.Some? && claim.volumeName == Some(volume.value.name)
              && volume.value.uid == Some(r.value.uid) && volume.value.version == Some(r.value.version)
              && claim.uid.Some? && volume.value.refersTo == claim.uid
              && volume.value.phase.Bound? && (volume.value.policy.Delete? || volume.value.policy.Retain?)
    ensures r.Err? ==> r.fault.Raised?
  {
    if volume.None? || claim.volumeName != Some(volume.value.name) then Err(Raised)
    else
      var identity :- IdentityOf(volume.value.uid, volume.value.version, volume.value.terminating);
      if claim.uid.None? || volume.value.refersTo != claim.uid || !volume.value.shaped
         || volume.value.policy.OtherPolicy? || !volume.value.phase.Bound?
      then Err(Raised)
      else Ok(identity)
  }

  predicate NameChar(c: char, first: bool) {
    'a' <= c <= 'z' || '0' <= c <= '9' || (!first && (c == '.' || c == '-'))
  }

  predicate ValidName(s: string) {
    0 < |s| <= 253 && forall i :: 0 <= i < |s| ==> NameChar(s[i], i == 0)
  }

  // ------------------------------------------------------------- the receipts

  datatype Status = Reserved | CreateIntent | AwaitingBinding | RetainIntent | Retained | Conflict

  datatype Receipt = Receipt(plan: Plan, status: Status, claimUid: Option<nat>,
                             volumeName: Option<string>, volumeUid: Option<nat>)

  function StatusRank(status: Status): nat {
    match status
    case Reserved => 0
    case CreateIntent => 1
    case AwaitingBinding => 2
    case RetainIntent => 3
    case Retained => 4
    case Conflict => 5
  }

  /** What recovery demands of a prior receipt, beyond its pinned checksum. */
  predicate Acceptable(plan: Plan, r: Receipt) {
    && r.plan == plan && !r.status.Conflict?
    && (r.volumeName.Some? ==> ValidName(r.volumeName.value))
    && (r.status.Reserved? || r.status.CreateIntent? || r.claimUid.Some?)
    && (r.status.RetainIntent? || r.status.Retained? ==> r.volumeUid.Some? && r.volumeName.Some?)
  }

  /** Once known, an identity stays. */
  predicate Keeps<T(==)>(earlier: Option<T>, later: Option<T>) {
    earlier.Some? ==> later == earlier
  }

  /** How one receipt may follow another. */
  predicate MayFollow(earlier: Receipt, later: Receipt) {
    && earlier.plan == later.plan
    && StatusRank(earlier.status) <= StatusRank(later.status)
    && (later.status.Conflict? ==> earlier.status.CreateIntent?)
    && Keeps(earlier.claimUid, later.claimUid)
    && Keeps(earlier.volumeName, later.volumeName)
    && Keeps(earlier.volumeUid, later.volumeUid)
  }

  // ---------------------------------------------------------------- the world

  /** The JSON patches that can be sent to a volume: tests of the UID, of the version and
      of the present policy, and a replacement of the policy. */
  datatype Change = Change(uid: nat, version: nat, from: Policy, to: Policy)

  /** A create names the operation it belongs to and what it wants. */
  datatype Event = PostSent(operation: nat, spec: nat)
                 | PatchSent(name: string, change: Change)

  /** The answer to one kubectl call. */
  datatype Answer<+T> = Answered(value: T) | NotFound | AlreadyExists | Failed | Gone

  /** The API server and the receipts of one operation. The server may answer
      anything at all; only what we ask and what we make durable is recorded. */
  class Api {
    var ledger: seq<Receipt>
    ghost var trace: seq<Event>
    ghost var basis: seq<Option<Receipt>>
    ghost var volumes: seq<Volume>  // every volume a read has shown us

    ghost predicate Valid()
      reads this
    {
      |basis| == |trace|
    }

    function Last(): Option<Receipt>
      reads this
    {
      if ledger == [] then None else Some(ledger[|ledger| - 1])
    }

    method Commit(receipt: Receipt) returns (r: Result<()>)
      modifies `ledger
      ensures ledger == old(ledger) || ledger == old(ledger) + [receipt]
      ensures r.Ok? ==> ledger == old(ledger) + [receipt]
    {
      var choice: nat := *;
      if choice < 2 {
        return Err(if choice == 0 then Raised else Died);
      }
      ledger := ledger + [receipt];
      r := if choice == 2 then Err(Raised) else if choice == 3 then Err(Died) else Ok(());
    }

    method ReadClaim() returns (a: Answer<Claim>) {
      a := *;
    }

    method ReadVolume() returns (a: Answer<Volume>)
      modifies `volumes
      ensures volumes == old(volumes) + if a.Answered? then [a.value] else []
    {
      a := *;
      if a.Answered? {
        volumes := volumes + [a.value];
      }
    }

    method Post(operation: nat, spec: nat) returns (a: Answer<Claim>)
      modifies `trace, `basis
      ensures trace == old(trace) + [PostSent(operation, spec)] && basis == old(basis) + [old(Last())]
    {
      trace, basis := trace + [PostSent(operation, spec)], basis + [Last()];
      a := *;
    }

    method Patch(name: string, change: Change) returns (a: Answer<Volume>)
      modifies `trace, `basis
      ensures trace == old(trace) + [PatchSent(name, change)] && basis == old(basis) + [old(Last())]
    {
      trace, basis := trace + [PatchSent(name, change)], basis + [Last()];
      a := *;
    }
  }

  // ------------------------------------------------------------ the transport

  /** What a caller of the transport gets: an object, a definite absence, a definite
      conflict, or an exception. */
  datatype Reply<+T> = Found(value: T) | Absent | Clash | Fault(fault: Fault)

  class Transport {
    const api: Api
    const plan: Plan
    var claim: Option<Claim>    // the last target claim that passed the checks
    var volume: Option<Volume>  // the last volume that passed the checks for it
    ghost var refused: bool     // whether the guard ever turned a request down

    ghost predicate Valid()
      reads this
    {
      && (claim.Some? ==> OwnedClaim(plan, claim).Ok?)
      && (volume.Some? ==> claim.Some? && claim.value.phase.Bound? && CheckVolume(claim.value, volume).Ok?)
    }

    constructor (api: Api, plan: Plan)
      ensures Valid() && this.api == api && this.plan == plan && !refused && claim.None? && volume.None?
    {
      this.api, this.plan, claim, volume, refused := api, plan, None, None, false;
    }

    /** The volume path that is open: that of the bound claim in the cache. */
    function VolumePath(): Option<string>
      reads this
    {
      if claim.Some? && claim.value.phase.Bound? then claim.value.volumeName else None
    }

    method GetSource() returns (r: Reply<Claim>) {
      var a := api.ReadClaim();
      r := match a case Answered(c) => Found(c) case NotFound => Absent case Gone => Fault(Died) case _ => Fault(Raised);
    }

    /** The claim in the cache is bound as the observed one is. */
    predicate SameBinding(observed: Claim)
      reads this
    {
      claim.Some? && claim.value.uid == observed.uid && claim.value.volumeName == observed.volumeName && observed.phase.Bound?
    }

    /** Check a target claim and remember it; a changed binding closes the volume. */
    method Remember(observed: Claim) returns (r: Reply<Claim>)
      requires Valid()
      modifies `claim, `volume
      ensures Valid()
      ensures r.Found? || (r == Fault(Raised) && claim == old(claim) && volume == old(volume))
      ensures r.Found? ==> r.value == observed && claim == Some(observed)
      ensures r.Found? ==> volume == if old(SameBinding(observed)) then old(volume) else None
      ensures r.Found? && observed.volumeName.Some? ==>
                ValidName(observed.volumeName.value) && observed.volumeName.value != plan.source.volumeName
    {
      if OwnedClaim(plan, Some(observed)).Err?
         || (observed.volumeName.Some?
             && !(ValidName(observed.volumeName.value) && observed.volumeName.value != plan.source.volumeName))
      {
        return Fault(Raised);
      }
      var same := SameBinding(observed);
      claim := Some(observed);
      if !same {
        volume := None;
      }
      r := Found(observed);
    }

    method GetTarget() returns (r: Reply<Claim>)
      requires Valid()
      modifies `claim, `volume
      ensures Valid() && !r.Clash? && (r.Absent? ==> claim.None? && volume.None?)
      ensures r.Found? ==> claim == Some(r.value) && OwnedClaim(plan, claim).Ok?
      ensures r.Found? && r.value.phase.Bound? && old(claim).Some?
              && old(claim).value.uid == r.value.uid && old(claim).value.volumeName == r.value.volumeName ==>
                volume == old(volume)
    {
      var a := api.ReadClaim();
      match a {
        case Answered(c) => r := Remember(c);
        case NotFound => claim, volume := None, None; r := Absent;
        case Gone => r := Fault(Died);
        case _ => r := Fault(Raised);
      }
    }

    method GetVolume(name: string) returns (r: Reply<Volume>)
      requires Valid()
      modifies `volume, `refused, api`volumes
      ensures Valid() && !r.Clash? && old(api.volumes) <= api.volumes
      ensures VolumePath() == Some(name) ==> refused == old(refused)
      ensures r.Found? ==> volume == Some(r.value) && r.value in api.volumes
    {
      if VolumePath() != Some(name) {
        refused := true;
        return Fault(Raised);
      }
      var a := api.ReadVolume();
      match a {
        case Answered(v) =>
          if CheckVolume(claim.value, Some(v)).Err? {
            return Fault(Raised);
          }
          volume := Some(v);
          r := Found(v);
        case NotFound => r := Absent;
        case Gone => r := Fault(Died);
        case _ => r := Fault(Raised);
      }
    }

    /** The guard admits exactly the claim of the plan; any other is refused and not sent. */
    method Post(operation: nat, spec: nat) returns (r: Reply<Claim>)
      requires Valid()
      modifies `claim, `volume, `refused, api`trace, api`basis
      ensures Valid() && !r.Absent?
      ensures if operation == plan.operation && spec == plan.spec then
                && refused == old(refused)
                && api.trace == old(api.trace) + [PostSent(operation, spec)] && api.basis == old(api.basis) + [old(api.Last())]
              else
                && refused && r == Fault(Raised) && claim == old(claim) && volume == old(volume)
                && api.trace == old(api.trace) && api.basis == old(api.basis)
      ensures r.Found? ==> claim == Some(r.value) && OwnedClaim(plan, claim).Ok?
    {
      if operation != plan.operation || spec != plan.spec {
        refused := true;
        return Fault(Raised);
      }
      var a := api.Post(operation, spec);
      match a {
        case Answered(c) => r := Remember(c);
        case AlreadyExists => r := Clash;
        case Gone => r := Fault(Died);
        case _ => r := Fault(Raised);
      }
    }

    /** The one patch that is open: from Delete to Retain, on the volume of the bound claim
        in the cache, in the version in which it was last validated. */
    predicate Admits(name: string, change: Change)
      reads this
    {
      && VolumePath() == Some(name) && volume.Some? && volume.value.policy.Delete?
      && var identity := CheckVolume(claim.value, volume);
      && identity.Ok? && change == Change(identity.value.uid, identity.value.version, Delete, Retain)
    }

    /** The guard admits exactly that patch; any other is refused and not sent. */
    method Patch(name: string, change: Change) returns (r: Reply<Volume>)
      requires Valid()
      modifies `volume, `refused, api`trace, api`basis
      ensures Valid()
      ensures if old(Admits(name, change)) then
                && refused == old(refused)
                && api.trace == old(api.trace) + [PatchSent(name, change)] && api.basis == old(api.basis) + [old(api.Last())]
              else
                && refused && r == Fault(Raised) && volume == old(volume)
                && api.trace == old(api.trace) && api.basis == old(api.basis)
    {
      if !Admits(name, change) {
        refused := true;
        return Fault(Raised);
      }
      var a := api.Patch(name, change);
      match a {
        case Answered(v) =>
          if CheckVolume(claim.value, Some(v)).Err? {
            return Fault(Raised);
          }
          volume := Some(v);
          r := Found(v);
        case NotFound => r := Fault(Raised);
        case Gone => r := Fault(Died);
        case _ => r := Fault(Raised);
      }
    }
  }

  // ---------------------------------------------------------- what runs keep

  /** Recovery accepts it, unless it is the terminal conflict. */
  ghost predicate Chained(plan: Plan, ledger: seq<Receipt>) {
    if ledger == [] then true else
      var n := |ledger| - 1;
      && Chained(plan, ledger[..n])
      && ledger[n].plan == plan && !ledger[n].status.Reserved?
      && (ledger[n].status.Conflict? || Acceptable(plan, ledger[n]))
      && (n == 0 ==> ledger[n].status.CreateIntent? && ledger[n].claimUid.None?
                     && ledger[n].volumeName.None? && ledger[n].volumeUid.None?)
      && (n > 0 ==> MayFollow(ledger[n - 1], ledger[n]))
  }

  predicate ShowsVolume(v: Volume, name: string, uid: nat) {
    v.name == name && v.uid == Some(uid) && v.phase.Bound?
  }

  /** The request is the only one its receipt allows, on what a read has shown. */
  ghost predicate Entitles(receipt: Receipt, e: Event, volumes: seq<Volume>) {
    match e
    case PostSent(operation, spec) =>
      && receipt.status.CreateIntent? && receipt.claimUid.None?
      && operation == receipt.plan.operation && spec == receipt.plan.spec
    case PatchSent(name, change) =>
      && receipt.status.RetainIntent? && receipt.volumeName == Some(name) && receipt.volumeUid == Some(change.uid)
      && change.from.Delete? && change.to.Retain?
      && exists v <- volumes :: ShowsVolume(v, name, change.uid) && v.version == Some(change.version) && v.policy.Delete?
                                && v.refersTo == receipt.claimUid
  }

  ghost predicate WriteAhead(trace: seq<Event>, basis: seq<Option<Receipt>>, ledger: seq<Receipt>, volumes: seq<Volume>)
    requires |trace| == |basis|
  {
    && (ledger == [] ==> trace == [])
    && (forall p :: 0 <= p < |trace| ==> basis[p].Some? && basis[p].value in ledger && Entitles(basis[p].value, trace[p], volumes))
    && (forall p, q :: 0 <= p < q < |trace| && trace[p].PostSent? ==> !trace[q].PostSent?)
  }

  /** A retained volume was seen bound to the claim, separate from the source, with
      its policy already Retain. */
  ghost predicate SeenRetained(plan: Plan, receipt: Receipt, volumes: seq<Volume>) {
    receipt.status.Retained? ==>
      && receipt.volumeName.Some? && receipt.volumeUid.Some? && receipt.volumeName.value != plan.source.volumeName
      && exists v <- volumes :: ShowsVolume(v, receipt.volumeName.value, receipt.volumeUid.value)
                                && v.policy.Retain? && v.refersTo == receipt.claimUid
  }

  ghost predicate Inv(plan: Plan, api: Api)
    reads api
  {
    && api.Valid()
    && Chained(plan, api.ledger)
    && WriteAhead(api.trace, api.basis, api.ledger, api.volumes)
    && (forall r <- api.ledger :: SeenRetained(plan, r, api.volumes))
  }

  lemma MoreVolumes(plan: Plan, api: Api, few: seq<Volume>, many: seq<Volume>)
    requires |api.trace| == |api.basis| && few <= many
    requires WriteAhead(api.trace, api.basis, api.ledger, few)
    requires forall r <- api.ledger :: SeenRetained(plan, r, few)
    ensures WriteAhead(api.trace, api.basis, api.ledger, many)
    ensures forall r <- api.ledger :: SeenRetained(plan, r, many)
  {
    assert forall v <- few :: v in many;
  }

  class Operation {
    const api: Api
    const transport: Transport
    const plan: Plan
    var state: Receipt

    ghost predicate Running()
      reads this, api, transport
    {
      && transport.api == api && transport.plan == plan && transport.Valid()
      && Inv(plan, api)
      && Acceptable(plan, state)
      && (api.ledger == [] ==> state == Receipt(plan, Reserved, None, None, None))
      && (api.ledger != [] ==> MayFollow(api.ledger[|api.ledger| - 1], state) && !state.status.Reserved?)
    }

    constructor (api: Api, transport: Transport, plan: Plan, state: Receipt)
      ensures this.api == api && this.transport == transport && this.plan == plan && this.state == state
    {
      this.api, this.transport, this.plan, this.state := api, transport, plan, state;
    }

    /** Set the status and make the state durable. */
    method Commit(status: Status) returns (r: Result<()>)
      requires Running() && !status.Reserved? && !status.Conflict?
      requires api.ledger == [] <==> status.CreateIntent?
      requires StatusRank(state.status) <= StatusRank(status) && Acceptable(plan, state.(status := status))
      requires SeenRetained(plan, state.(status := status), api.volumes)
      modifies this, api`ledger
      ensures state == old(state).(status := status) && old(api.ledger) <= api.ledger
      ensures Inv(plan, api)
      ensures r.Ok? ==> Running() && api.Last() == Some(state)
    {
      state := state.(status := status);
      r := api.Commit(state);
      assert (old(api.ledger) + [state])[..|old(api.ledger)|] == old(api.ledger);
    }

    /** The terminal receipt of a definite conflict. */
    method CommitConflict()
      requires Running() && state.status.CreateIntent? && api.ledger != [] && api.Last() == Some(state)
      modifies this, api`ledger
      ensures Inv(plan, api) && old(api.ledger) <= api.ledger
    {
      state := state.(status := Conflict);
      var _ := api.Commit(state);
      assert (old(api.ledger) + [state])[..|old(api.ledger)|] == old(api.ledger);
    }

    method CheckSource() returns (r: Result<()>)
      requires Running()
      ensures Running()
    {
      var reply := transport.GetSource();
      if reply.Fault? {
        return Err(reply.fault);
      }
      r := Require(SourceIntact(plan, if reply.Found? then Some(reply.value) else None));
    }

    /** Read the target claim; no claim is an answer too. */
    method Target() returns (r: Result<Option<Claim>>)
      requires Running()
      modifies transport`claim, transport`volume
      ensures Running()
      ensures r.Ok? && r.value.Some? ==> transport.claim == r.value && OwnedClaim(plan, r.value).Ok?
      ensures r.Ok? && r.value.Some? && r.value.value.phase.Bound? && old(transport.claim).Some?
              && old(transport.claim).value.uid == r.value.value.uid
              && old(transport.claim).value.volumeName == r.value.value.volumeName ==>
                transport.volume == old(transport.volume)
    {
      var reply := transport.GetTarget();
      r := match reply case Found(c) => Ok(Some(c)) case Absent => Ok(None) case Clash => Err(Raised) case Fault(f) => Err(f);
    }

    /** Send the one create of the operation, behind its durable intent. */
    method CreateClaim() returns (r: Result<Option<Claim>>)
      requires Running() && state.status.Reserved?
      modifies this, api, transport
      ensures Inv(plan, api) && old(api.ledger) <= api.ledger && transport.refused == old(transport.refused)
      ensures r.Ok? ==> Running() && state.status.CreateIntent?
      ensures r.Ok? && r.value.Some? ==> transport.claim == r.value
    {
      var _ :- Commit(CreateIntent);
      var reply := transport.Post(plan.operation, plan.spec);
      match reply {
        case Found(c) => r := Ok(Some(c));
        case Clash => CommitConflict(); r := Err(Raised);
        case Fault(f) =>
          if f.Died? {
            return Err(Died);
          }
          r := Target();
      }
    }
 
    /** Look at the target claim again: same claim, same volume, still bound. */
    method StillBound(name: string) returns (r: Result<Claim>)
      requires Running() && state.claimUid.Some?
      modifies transport`claim, transport`volume
      ensures Running()
      ensures r.Ok? ==> r.value.uid == state.claimUid && r.value.volumeName == Some(name) && r.value.phase.Bound?
      ensures r.Ok? ==> transport.claim == Some(r.value)
      ensures r.Ok? && old(transport.claim).Some? && old(transport.claim).value.uid == state.claimUid
              && old(transport.claim).value.volumeName == Some(name) ==>
                transport.volume == old(transport.volume)
    {
      var _ :- CheckSource();
      var latest :- Target();
      var identity :- OwnedClaim(plan, latest);
      var _ :- Require(Some(identity.uid) == state.claimUid && latest.value.volumeName == Some(name) && latest.value.phase.Bound?);
      r := Ok(latest.value);
    }

    /** Switch the observed volume from Delete to Retain, at most once in this run,
        and find out whether that is what the volume now says. */
    method SwitchToRetain(claim: Claim, seen: Volume, identity: Identity) returns (r: Result<()>)
      requires Running() && api.ledger != []
      requires state.claimUid.Some? && claim.uid == state.claimUid && claim.phase.Bound?
      requires transport.claim == Some(claim) && transport.volume == Some(seen) && seen in api.volumes
      requires CheckVolume(claim, Some(seen)) == Ok(identity) && seen.policy.Delete?
      requires state.volumeName == Some(seen.name) && state.volumeUid == Some(identity.uid)
      requires StatusRank(state.status) <= 3 && ValidName(seen.name)
      modifies this, api, transport
      ensures Inv(plan, api) && old(api.ledger) <= api.ledger
      ensures transport.refused == old(transport.refused)
      ensures r.Ok? ==> Running() && state == old(state).(status := RetainIntent) && api.ledger != []
      ensures r.Ok? ==> exists v <- api.volumes :: ShowsVolume(v, seen.name, identity.uid) && v.policy.Retain? && v.refersTo == state.claimUid
    {
      var _ :- Commit(RetainIntent);
      var latest :- StillBound(seen.name);
      var _ :- SendPatch(latest, seen, identity);
      var reply := GetVolume(seen.name);
      var after :- reply;
      var now :- CheckVolume(latest, after);
      r := Require(now.uid == identity.uid && after.value.policy.Retain?);
    }

    /** The guarded patch; an exception leaves the outcome to the next read. */
    method SendPatch(latest: Claim, seen: Volume, identity: Identity) returns (r: Result<()>)
      requires Running() && state.status.RetainIntent? && api.ledger != [] && api.Last() == Some(state)
      requires transport.claim == Some(latest) && transport.volume == Some(seen) && seen in api.volumes
      requires latest.phase.Bound? && latest.uid == state.claimUid
      requires CheckVolume(latest, Some(seen)) == Ok(identity) && seen.policy.Delete?
      requires state.volumeName == Some(seen.name) && state.volumeUid == Some(identity.uid)
      modifies api`trace, api`basis, transport`volume, transport`refused
      ensures Running() && transport.refused == old(transport.refused)
    {
      var reply := transport.Patch(seen.name, Change(identity.uid, identity.version, Delete, Retain));
      r := if reply == Fault(Died) then Err(Died) else Ok(());
    }

    method GetVolume(name: string) returns (r: Result<Option<Volume>>)
      requires Running() && transport.VolumePath() == Some(name)
      modifies transport`volume, transport`refused, api`volumes
      ensures Running() && transport.refused == old(transport.refused) && old(api.volumes) <= api.volumes
      ensures r.Ok? && r.value.Some? ==> transport.volume == r.value && r.value.value in api.volumes
    {
      var reply := transport.GetVolume(name);
      MoreVolumes(plan, api, old(api.volumes), api.volumes);
      r := match reply case Found(v) => Ok(Some(v)) case Absent => Ok(None) case Clash => Err(Raised) case Fault(f) => Err(f);
    }
 
    /** One advance, up to its first exception. */
    method Execute() returns (r: Result<()>)
      requires Running()
      modifies this, api, transport
      ensures Inv(plan, api) && old(api.ledger) <= api.ledger && transport.refused == old(transport.refused)
      ensures r.Ok? ==> api.Last() == Some(state) && (state.status.AwaitingBinding? || state.status.Retained?)
    {
      var claim :- OwnTarget();
      if claim.phase.Pending? {
        var _ :- Require(state.status.CreateIntent? || state.status.AwaitingBinding?);
        r := Commit(AwaitingBinding);
        return;
      }
      var _ :- Require(claim.phase.Bound?);
      var _ :- Require(claim.volumeName.Some? && ValidName(claim.volumeName.value)
                       && claim.volumeName.value != plan.source.volumeName && Keeps(state.volumeName, claim.volumeName));
      r := Secure(claim, claim.volumeName.value);
    }

    /** Find the target claim, creating it if this is a fresh operation, and own it. */
    method OwnTarget() returns (r: Result<Claim>)
      requires Running()
      modifies this, api, transport
      ensures Inv(plan, api) && old(api.ledger) <= api.ledger && transport.refused == old(transport.refused)
      ensures r.Ok? ==> Running() && !state.status.Reserved? && r.value.uid == state.claimUid && state.claimUid.Some?
      ensures r.Ok? ==> transport.claim == Some(r.value) && OwnedClaim(plan, Some(r.value)).Ok?
    {
      var _ :- CheckSource();
      var claim :- Target();
      if state.status.Reserved? {
        var _ :- Require(claim.None?);
        claim :- CreateClaim();
      }
      var identity :- OwnedClaim(plan, claim);
      var _ :- Require(identity.uid != plan.source.claimUid && Keeps(state.claimUid, Some(identity.uid)));
      state := state.(claimUid := Some(identity.uid));
      r := Ok(claim.value);
    }

    /** Read the bound volume and own it. */
    method OwnVolume(claim: Claim, name: string) returns (r: Result<Volume>)
      requires Running() && !state.status.Reserved? && claim.uid == state.claimUid && state.claimUid.Some?
      requires transport.claim == Some(claim) && claim.phase.Bound? && claim.volumeName == Some(name) && ValidName(name)
      requires Keeps(state.volumeName, Some(name))
      modifies this, transport`volume, transport`refused, api`volumes
      ensures Running() && transport.refused == old(transport.refused)
      ensures r.Ok? ==> transport.volume == Some(r.value) && r.value in api.volumes && r.value.name == name
      ensures r.Ok? ==> CheckVolume(claim, Some(r.value)).Ok?
      ensures r.Ok? ==> state == old(state).(volumeName := Some(name), volumeUid := r.value.uid)
    {
      var volume :- GetVolume(name);
      var identity :- CheckVolume(claim, volume);
      var _ :- Require(Keeps(state.volumeUid, Some(identity.uid)));
      state := state.(volumeName := Some(name), volumeUid := Some(identity.uid));
      r := Ok(volume.value);
    }

    /** Own the bound volume, make sure it is retained, and say so. */
    method Secure(claim: Claim, name: string) returns (r: Result<()>)
      requires Running() && !state.status.Reserved? && claim.uid == state.claimUid && state.claimUid.Some?
      requires transport.claim == Some(claim) && claim.phase.Bound? && claim.volumeName == Some(name) && ValidName(name)
      requires name != plan.source.volumeName && Keeps(state.volumeName, Some(name))
      modifies this, api, transport
      ensures Inv(plan, api) && old(api.ledger) <= api.ledger && transport.refused == old(transport.refused)
      ensures r.Ok? ==> api.Last() == Some(state) && state.status.Retained?
    {
      hide Chained, WriteAhead, Transport.Valid, ValidName;
      var volume :- OwnVolume(claim, name);
      if !volume.policy.Retain? {
        var _ :- Require(!state.status.Retained?);
        var identity := CheckVolume(claim, Some(volume)).value;
        var _ :- SwitchToRetain(claim, volume, identity);
      }
      var _ :- StillBound(name);
      r := Commit(Retained);
    }
  }

  /** One call of `advance_storage`, fresh or from the last durable receipt. Whatever
      happens, the operation's invariant holds, and the guard refused nothing. */
  method AdvanceStorage(api: Api, transport: Transport, plan: Plan) returns (r: Result<Receipt>)
    requires Inv(plan, api) && transport.Valid() && transport.api == api && transport.plan == plan
    modifies api, transport
    ensures Inv(plan, api) && old(api.ledger) <= api.ledger
    ensures transport.refused == old(transport.refused)
    ensures r.Ok? ==> api.Last() == Some(r.value) && (r.value.status.AwaitingBinding? || r.value.status.Retained?)
  {
    var state := Receipt(plan, Reserved, None, None, None);
    if api.ledger != [] {
      state := api.ledger[|api.ledger| - 1];
      if !Acceptable(plan, state) {
        return Err(Raised);
      }
    }
    var operation := new Operation(api, transport, plan, state);
    var outcome := operation.Execute();
    r := if outcome.Ok? then Ok(operation.state) else Err(outcome.fault);
  }

  /** Any number of advances, each through a transport of its own. */
  method AdvanceAgainAndAgain(api: Api, plan: Plan)
    requires Inv(plan, api)
    modifies api
    ensures Inv(plan, api) && old(api.ledger) <= api.ledger
  {
    var runs: nat := *;
    while runs > 0
      invariant Inv(plan, api) && old(api.ledger) <= api.ledger
    {
      var transport := new Transport(api, plan);
      var _ := AdvanceStorage(api, transport, plan);
      runs := runs - 1;
    }
  }

  // --------------------------------------------------------------- what follows

  /** Along a chain the status only moves forward, identities never change once
      known, a conflict is terminal, and every other receipt can be resumed. */
  lemma {:induction false} ChainsMoveForward(plan: Plan, ledger: seq<Receipt>, i: nat, j: nat)
    requires Chained(plan, ledger) && i <= j < |ledger|
    ensures StatusRank(ledger[i].status) <= StatusRank(ledger[j].status)
    ensures Keeps(ledger[i].claimUid, ledger[j].claimUid)
    ensures Keeps(ledger[i].volumeName, ledger[j].volumeName)
    ensures Keeps(ledger[i].volumeUid, ledger[j].volumeUid)
    ensures Acceptable(plan, ledger[j]) <==> !ledger[j].status.Conflict?
    ensures i < j ==> !ledger[i].status.Conflict?
    ensures i > 0 ==> !ledger[i].status.Reserved?
  {
    var n := |ledger| - 1;
    if j < n {
      ChainsMoveForward(plan, ledger[..n], i, j);
    } else if i < n {
      ChainsMoveForward(plan, ledger[..n], i, n - 1);
    }
  }

  /** Over any chain of advances at most one create is sent, from the first receipt. */
  lemma OneCreatePerChain(plan: Plan, api: Api, p: nat, q: nat)
    requires Inv(plan, api) && p < |api.trace| && q < |api.trace|
    requires api.trace[p].PostSent? && api.trace[q].PostSent?
    ensures p == q
    ensures api.basis[p].Some? && api.basis[p].value.status.CreateIntent?
    ensures api.trace[p] == PostSent(api.basis[p].value.plan.operation, api.basis[p].value.plan.spec)
  {
  }

  /** Whatever patch was sent changes Delete to Retain and nothing else, on a volume that a
      read showed with that UID and version, bound to the owned claim and still set to
      Delete. */
  lemma PatchesOnlyRetain(plan: Plan, api: Api, p: nat) returns (v: Volume)
    requires Inv(plan, api) && p < |api.trace| && api.trace[p].PatchSent?
    ensures api.trace[p].change.from == Delete && api.trace[p].change.to == Retain
    ensures v in api.volumes && v.policy.Delete? && v.phase.Bound?
    ensures v.name == api.trace[p].name && v.uid == Some(api.trace[p].change.uid) && v.version == Some(api.trace[p].change.version)
    ensures api.basis[p].Some? && api.basis[p].value.status.RetainIntent? && v.refersTo == api.basis[p].value.claimUid
  {
    var name, change := api.trace[p].name, api.trace[p].change;
    v :| v in api.volumes && ShowsVolume(v, name, change.uid) && v.version == Some(change.version) && v.policy.Delete?
         && v.refersTo == api.basis[p].value.claimUid;
  }

  /** A receipt says retained only of a volume that a read showed bound, retained,
      belonging to the owned claim, and different from the source volume. */
  lemma RetainedWasObserved(plan: Plan, api: Api, receipt: Receipt) returns (v: Volume)
    requires Inv(plan, api) && receipt in api.ledger && receipt.status.Retained?
    ensures v in api.volumes && v.policy.Retain? && v.phase.Bound?
    ensures receipt.volumeName == Some(v.name) && receipt.volumeUid == v.uid && receipt.claimUid == v.refersTo
    ensures v.name != plan.source.volumeName
  {
    assert SeenRetained(plan, receipt, api.volumes);
    v :| v in api.volumes && ShowsVolume(v, receipt.volumeName.value, receipt.volumeUid.value)
         && v.policy.Retain? && v.refersTo == receipt.claimUid;
  }
}