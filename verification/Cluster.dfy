/** The world outside the coordinators: an API server that other actors keep
    changing, requests whose answers get lost, and the durable receipt ledger.

    Every call first lets the rest of the world move (`Interfere`), then performs
    one request, which may succeed, fail before or after its effect, or be the
    last thing the process ever does. */
module ApiServer {
  import opened Wrappers

  datatype Kind = ServiceAccountKind | NetworkPolicyKind | ConfigMapKind | ServiceKind
                | DeploymentKind | RoleKind | RoleBindingKind | KustomizationKind | IngressKind | PodKind
                | SecretKind | ReplicaSetKind | PersistentVolumeKind | PersistentVolumeClaimKind

  datatype Key = Key(kind: Kind, namespace: string, name: string)

  /** The ownership annotation. A value drawn by one of our runs is `Ours`;
      nobody else can guess it. */
  datatype Mark = Unmarked | Ours(nonce: nat) | Theirs(value: nat)

  /** Flux puts a pair of labels on what it manages: the expected pair, or anything else. */
  datatype Tracking = Untracked | Tracked | Mislabelled

  /** What strict comparison looks at: the normalized semantics of an object, with
      the suspension flag of a Kustomization and the Flux labels kept apart,
      because those change while the rest must not. */
  datatype Body = Body(semantics: nat, suspended: bool, tracking: Tracking)

  /** `version` is the resourceVersion: any write moves it forward. */
  datatype Obj = Obj(uid: nat, version: nat, mark: Mark, body: Body)

  /** A create request: where, under which nonce, and what. */
  datatype Post = Post(key: Key, nonce: nat, body: Body)

  /** The JSON patches in use, each behind tests of the UID and the resourceVersion. */
  datatype Change = DropNonce(nonce: nat) | Unsuspend

  /** The tests of a patch (section 4.6 of RFC 6902). */
  predicate Applies(o: Obj, uid: nat, version: nat, change: Change) {
    && o.uid == uid && o.version == version
    && match change
       case DropNonce(nonce) => o.mark == Ours(nonce)
       case Unsuspend => o.body.suspended
  }

  function Patched(o: Obj, change: Change): Obj {
    match change
    case DropNonce(_) => Obj(o.uid, o.version + 1, Unmarked, o.body)
    case Unsuspend => Obj(o.uid, o.version + 1, o.mark, o.body.(suspended := false))
  }

  /** The requests of ours that change something, in the order they are sent. */
  datatype Event = PostSent(post: Post)
                 | PatchSent(key: Key, uid: nat, change: Change)
                 | DeleteSent(key: Key, uid: nat, version: nat)
                 | SuspendSent(key: Key, suspend: bool)

  /** What an answer of the server showed, to a read or to a patch, and how many
      changing requests had been sent by then. A listing by labels is noted under a key
      that spells the query; it found `None` when it was empty. */
  datatype Sighting = Sighting(key: Key, found: Option<Obj>, at: nat)

  /** A step of somebody else, as far as it concerns the object at one place. */
  datatype Foreign = Removed(key: Key, uid: nat) | Added(key: Key) | Altered(key: Key)

  /** From step number `since` on, somebody else did something at this place. */
  ghost predicate Touched(foreign: seq<Foreign>, since: nat, key: Key) {
    exists i :: since <= i < |foreign| && foreign[i].key == key
  }

  /** From step number `since` on, somebody else removed this very object. */
  ghost predicate Taken(foreign: seq<Foreign>, since: nat, key: Key, uid: nat) {
    exists i :: since <= i < |foreign| && foreign[i] == Removed(key, uid)
  }

  lemma StillTaken(few: seq<Foreign>, many: seq<Foreign>, earlier: nat, since: nat, key: Key, uid: nat)
    requires few <= many && earlier <= since
    ensures Taken(few, since, key, uid) ==> Taken(many, earlier, key, uid)
  {
    if Taken(few, since, key, uid) {
      var i :| since <= i < |few| && few[i] == Removed(key, uid);
      assert many[i] == Removed(key, uid);
    }
  }

  lemma StillTouched(few: seq<Foreign>, many: seq<Foreign>, earlier: nat, since: nat, key: Key)
    requires few <= many && earlier <= since
    ensures Touched(few, since, key) ==> Touched(many, earlier, key)
  {
    if Touched(few, since, key) {
      var i :| since <= i < |few| && few[i].key == key;
      assert many[i].key == key;
    }
  }

  /** Every object is still there, unless somebody else removed it. */
  ghost predicate NoneLost(before: map<Key, Obj>, after: map<Key, Obj>, foreign: seq<Foreign>, since: nat) {
    forall k <- before :: (k in after && after[k].uid == before[k].uid) || Taken(foreign, since, k, before[k].uid)
  }

  predicate SameAt(before: map<Key, Obj>, after: map<Key, Obj>, k: Key) {
    (k in after <==> k in before) && (k in after ==> k in before && after[k] == before[k])
  }

  /** Whatever is different, anywhere but at `except`, was changed by somebody else. */
  ghost predicate OnlyOthers(before: map<Key, Obj>, after: map<Key, Obj>, foreign: seq<Foreign>, since: nat, except: Option<Key>) {
    && NoneLost(before, after, foreign, since)
    && forall k :: SameAt(before, after, k) || Touched(foreign, since, k) || except == Some(k)
  }

  /** An object keeps its place and moves its version forward with every change, and its
      nonce can only vanish: what looks like an old object is one. */
  ghost predicate Persisted(before: map<Key, Obj>, nextBefore: nat, after: map<Key, Obj>, next: nat) {
    && nextBefore <= next
    && (forall k <- after :: after[k].uid < nextBefore ==>
          && k in before && before[k].uid == after[k].uid
          && (before[k] == after[k] || before[k].version < after[k].version)
          && (after[k].mark.Ours? ==> before[k].mark == after[k].mark))
  }

  lemma PersistedAgain(first: map<Key, Obj>, m: nat, second: map<Key, Obj>, n: nat, third: map<Key, Obj>, next: nat)
    requires Persisted(first, m, second, n) && Persisted(second, n, third, next)
    ensures Persisted(first, m, third, next)
  {
  }

  /** If this object was here in this version before, it was the same object. */
  predicate AsBefore(before: map<Key, Obj>, key: Key, o: Obj) {
    key in before && before[key].uid == o.uid && before[key].version == o.version ==> before[key] == o
  }

  lemma OthersAgain(first: map<Key, Obj>, second: map<Key, Obj>, third: map<Key, Obj>, few: seq<Foreign>, many: seq<Foreign>,
                    since: nat, except: Option<Key>)
    requires since <= |few| && few <= many
    requires OnlyOthers(first, second, few, since, None) && OnlyOthers(second, third, many, |few|, except)
    ensures OnlyOthers(first, third, many, since, except)
  {
    forall k | k in first
      ensures (k in third && third[k].uid == first[k].uid) || Taken(many, since, k, first[k].uid)
    {
      StillTaken(few, many, since, since, k, first[k].uid);
      StillTaken(many, many, since, |few|, k, first[k].uid);
    }
    forall k
      ensures SameAt(first, third, k) || Touched(many, since, k) || except == Some(k)
    {
      assert SameAt(first, second, k) || Touched(few, since, k);
      assert SameAt(second, third, k) || Touched(many, |few|, k) || except == Some(k);
      StillTouched(few, many, since, since, k);
      StillTouched(many, many, since, |few|, k);
    }
  }

  /** What a request finds after the others have moved, and what it leaves. */
  lemma AfterInterference(before: map<Key, Obj>, m: nat, middle: map<Key, Obj>, n: nat, after: map<Key, Obj>, next: nat,
                          foreign: seq<Foreign>, since: nat, key: Key)
    requires since <= |foreign| && forall k <- before :: before[k].uid < m
    requires Persisted(before, m, middle, n) && Persisted(middle, n, after, next)
    requires OnlyOthers(before, middle, foreign, since, None) && OnlyOthers(middle, after, foreign, |foreign|, Some(key))
    ensures Persisted(before, m, after, next) && OnlyOthers(before, after, foreign, since, Some(key))
    ensures key in middle ==> AsBefore(before, key, middle[key])
    ensures SameAt(before, middle, key) || Touched(foreign, since, key)
  {
    PersistedAgain(before, m, middle, n, after, next);
    OthersAgain(before, middle, after, foreign, foreign, since, Some(key));
  }

  /** The answer to a create request. `NoReply` is any failure but the definite conflict,
      and `Thrown` an exception that comes out of the request itself, such as a signal: the
      request may or may not have taken effect, now or later. */
  datatype Reply = Admitted(obj: Obj) | AlreadyExists | NoReply | Thrown | Gone

  predicate IsPost(e: Event, key: Key, nonce: nat) {
    e.PostSent? && e.post.key == key && e.post.nonce == nonce
  }

  /** At most one create was sent for this place under this nonce. */
  ghost predicate SentOnce(trace: seq<Event>, key: Key, nonce: nat) {
    forall i, j :: 0 <= i < j < |trace| && IsPost(trace[i], key, nonce) ==> !IsPost(trace[j], key, nonce)
  }

  ghost predicate SentTwice(trace: seq<Event>, post: Post) {
    exists i, j :: 0 <= i < j < |trace| && trace[i] == PostSent(post) && trace[j] == PostSent(post)
  }

  /** One create makes at most one object: what has landed is not in flight any more. */
  ghost predicate LandOnce(inflight: set<Post>, made: map<nat, Post>, trace: seq<Event>) {
    forall u <- made :: made[u] in inflight ==> SentTwice(trace, made[u])
  }

  lemma StillLandOnce(inflight: set<Post>, made: map<nat, Post>, trace: seq<Event>, e: Event)
    requires LandOnce(inflight, made, trace)
    ensures LandOnce(inflight, made, trace + [e])
  {
    forall u | u in made && made[u] in inflight
      ensures SentTwice(trace + [e], made[u])
    {
      var i, j :| 0 <= i < j < |trace| && trace[i] == PostSent(made[u]) && trace[j] == PostSent(made[u]);
      assert (trace + [e])[i] == trace[i] && (trace + [e])[j] == trace[j];
    }
  }

  /** What was sent before and is sent again was sent twice. */
  lemma Resent(trace: seq<Event>, post: Post)
    requires PostSent(post) in trace
    ensures SentTwice(trace + [PostSent(post)], post)
  {
    var i :| 0 <= i < |trace| && trace[i] == PostSent(post);
    var more := trace + [PostSent(post)];
    assert more[i] == PostSent(post) && more[|trace|] == PostSent(post);
  }

  class Cluster<R(!new)> {
    var objects: map<Key, Obj>
    var inflight: set<Post>       // creates that were sent and may still land
    var nextUid: nat
    var nextNonce: nat
    var ledger: seq<R>            // the durable receipts of one transaction

    ghost var made: map<nat, Post>      // which of our requests made an object
    ghost var trace: seq<Event>      // our mutating requests
    ghost var basis: seq<Option<R>>     // the last durable receipt at each request
    ghost var sightings: seq<Sighting>  // what the answers showed us
    ghost var seen: seq<nat>            // how many sightings there were at each request
    ghost var upTo: seq<nat>            // how many requests had been sent at each receipt
    ghost var foreign: seq<Foreign>     // the steps of everybody else
    ghost var applied: map<nat, nat>    // our patches that took effect, and after how many foreign steps
    ghost var replies: map<nat, Reply>  // how our creates ended
    ghost var unanswered: nat           // reads without an answer, and exceptions out of a patch

    ghost predicate Valid()
      reads this
    {
      && |basis| == |trace| == |seen| && |upTo| == |ledger| && (forall n <- upTo :: n <= |trace|)
      && (forall p <- applied :: p < |trace| && applied[p] <= |foreign|)
      && (forall k <- objects :: objects[k].uid < nextUid)
      && (forall k <- objects :: objects[k].mark.Ours? ==>
            objects[k].uid in made && made[objects[k].uid].key == k
            && made[objects[k].uid].nonce == objects[k].mark.nonce)
      && (forall u <- made :: u < nextUid && PostSent(made[u]) in trace)
      && (forall p <- inflight :: PostSent(p) in trace)
      && (forall e <- trace :: e.PostSent? ==> e.post.nonce < nextNonce)
      && LandOnce(inflight, made, trace)
    }

    function Last(): Option<R>
      reads this
    {
      if ledger == [] then None else Some(ledger[|ledger| - 1])
    }

    /** What no step of anybody ever undoes. */
    twostate predicate Grew()
      reads this
    {
      && Valid()
      && Persisted(old(objects), old(nextUid), objects, nextUid)
      && old(nextNonce) <= nextNonce
      && old(foreign) <= foreign
      && (forall u <- old(made) :: u in made && made[u] == old(made[u]))
    }

    constructor ()
      ensures Valid() && trace == [] && ledger == [] && made == map[] && sightings == [] && foreign == [] && inflight == {}
    {
      objects, inflight, nextUid, nextNonce, ledger := map[], {}, 0, 0, [];
      made, trace, basis, sightings, seen, upTo, foreign, applied := map[], [], [], [], [], [], [], map[];
      replies, unanswered := map[], 0;
    }

    /** One step of somebody else: a late create lands or is dropped, an object is
        deleted, replaced or changed in any way. Only the guessing of a nonce is
        excluded. */
    method OneForeignStep()
      requires Valid()
      modifies `objects, `inflight, `nextUid, `made, `foreign
      ensures Grew() && OnlyOthers(old(objects), objects, foreign, |old(foreign)|, None)
      ensures inflight <= old(inflight)
    {
      var k: Key := *;
      var choice: nat := *;
      var body: Body := *;
      var mark: Mark := *;
      if choice == 0 && k in objects {
        Vanish(k);
      } else if choice == 1 && k !in objects && !mark.Ours? {
        Place(k, Obj(nextUid, 0, mark, body));
      } else if choice == 2 && k in objects {
        var o := objects[k];
        Alter(k, Obj(o.uid, o.version + 1, if mark.Ours? then o.mark else mark, body));
      } else if choice == 3 && inflight != {} {
        var p :| p in inflight;
        Arrive(p, body);
      } else if choice == 4 && inflight != {} {
        var p :| p in inflight;
        inflight := inflight - {p};
      }
    }

    method Vanish(k: Key)
      requires Valid() && k in objects
      modifies `objects, `foreign
      ensures Grew() && OnlyOthers(old(objects), objects, foreign, |old(foreign)|, None)
    {
      foreign := foreign + [Removed(k, objects[k].uid)];
      assert foreign[|old(foreign)|] == Removed(k, objects[k].uid);
      objects := objects - {k};
    }

    method Place(k: Key, o: Obj)
      requires Valid() && k !in objects && o.uid == nextUid && !o.mark.Ours?
      modifies `objects, `nextUid, `foreign
      ensures Grew() && OnlyOthers(old(objects), objects, foreign, |old(foreign)|, None)
    {
      foreign := foreign + [Added(k)];
      assert foreign[|old(foreign)|].key == k;
      objects, nextUid := objects[k := o], nextUid + 1;
    }

    method Alter(k: Key, o: Obj)
      requires Valid() && k in objects && o.uid == objects[k].uid && o.version == objects[k].version + 1
      requires o.mark == objects[k].mark || !o.mark.Ours?
      modifies `objects, `foreign
      ensures Grew() && OnlyOthers(old(objects), objects, foreign, |old(foreign)|, None)
    {
      foreign := foreign + [Altered(k)];
      assert foreign[|old(foreign)|].key == k;
      objects := objects[k := o];
    }

    /** A create that was lost lands late, if the place is still free. */
    method Arrive(p: Post, body: Body)
      requires Valid() && p in inflight
      modifies `objects, `inflight, `nextUid, `made, `foreign
      ensures Grew() && OnlyOthers(old(objects), objects, foreign, |old(foreign)|, None)
      ensures inflight <= old(inflight)
    {
      inflight := inflight - {p};
      if p.key !in objects {
        foreign := foreign + [Added(p.key)];
        assert foreign[|old(foreign)|].key == p.key;
        Land(p, body);
        assert forall k :: k != p.key ==> SameAt(old(objects), objects, k);
      }
    }

    /** Any number of steps of the rest of the world. */
    method Interfere()
      requires Valid()
      modifies `objects, `inflight, `nextUid, `made, `foreign
      ensures Grew() && OnlyOthers(old(objects), objects, foreign, |old(foreign)|, None)
      ensures inflight <= old(inflight)
    {
      var steps: nat := *;
      while steps > 0
        invariant Grew() && OnlyOthers(old(objects), objects, foreign, |old(foreign)|, None) && inflight <= old(inflight)
      {
        ghost var middle, few := objects, foreign;
        OneForeignStep();
        OthersAgain(old(objects), middle, objects, few, foreign, |old(foreign)|, None);
        steps := steps - 1;
      }
    }

    /** A create takes effect. The server's admission chain chose the body. */
    method Land(post: Post, body: Body)
      requires Valid() && post.key !in objects && PostSent(post) in trace
      modifies `objects, `nextUid, `made
      requires post in inflight ==> SentTwice(trace, post)
      ensures Grew() && foreign == old(foreign)
      ensures post.key in objects && objects == old(objects)[post.key := objects[post.key]]
      ensures objects[post.key].mark == Ours(post.nonce)
    {
      objects := objects[post.key := Obj(nextUid, 0, Ours(post.nonce), body)];
      made := made[nextUid := post];
      nextUid := nextUid + 1;
    }

    /** A fresh random nonce. */
    method Draw() returns (nonce: nat)
      requires Valid()
      modifies `nextNonce
      ensures Grew()
      ensures nonce == old(nextNonce) && nextNonce == nonce + 1
    {
      nonce := nextNonce;
      nextNonce := nextNonce + 1;
    }

    /** Write one durable receipt, atomically. A fault may come before or after it. */
    method Commit(receipt: R) returns (r: Result<()>)
      requires Valid()
      modifies `ledger, `upTo
      ensures Valid()
      ensures upTo == old(upTo) + if ledger == old(ledger) then [] else [|trace|]
      ensures ledger == old(ledger) || ledger == old(ledger) + [receipt]
      ensures r.Ok? ==> ledger == old(ledger) + [receipt]
    {
      var choice: nat := *;
      if choice == 0 {
        return Err(Raised);
      } else if choice == 1 {
        return Err(Died);
      }
      ledger, upTo := ledger + [receipt], upTo + [|trace|];
      r := if choice == 2 then Err(Raised) else if choice == 3 then Err(Died) else Ok(());
    }

    /** Some check of the outside world that this model does not look into. */
    method Check() returns (r: Result<()>)
      requires Valid()
      modifies `objects, `inflight, `nextUid, `made, `foreign
      ensures Grew() && OnlyOthers(old(objects), objects, foreign, |old(foreign)|, None)
      ensures inflight <= old(inflight)
    {
      Interfere();
      r := *;
    }

    method Get(key: Key) returns (r: Result<Option<Obj>>)
      requires Valid()
      modifies `objects, `inflight, `nextUid, `made, `foreign, `sightings, `unanswered
      ensures Grew() && OnlyOthers(old(objects), objects, foreign, |old(foreign)|, None)
      ensures inflight <= old(inflight)
      ensures sightings == old(sightings) + if r.Ok? then [Sighting(key, r.value, |trace|)] else []
      ensures unanswered == old(unanswered) + if r.Ok? then 0 else 1
      ensures r.Ok? ==> r.value == if key in objects then Some(objects[key]) else None
    {
      Interfere();
      var choice: nat := *;
      if choice < 2 {
        unanswered := unanswered + 1;
        return Err(if choice == 0 then Raised else Died);
      }
      r := Ok(if key in objects then Some(objects[key]) else None);
      Show(key, r.value);
    }

    /** A request leaves. */
    ghost method Leave(e: Event)
      requires Valid() && (e.PostSent? ==> e.post.nonce < nextNonce)
      modifies `trace, `basis, `seen
      ensures Valid() && trace == old(trace) + [e]
      ensures basis == old(basis) + [old(Last())] && seen == old(seen) + [|sightings|]
    {
      StillLandOnce(inflight, made, trace, e);
      trace, basis, seen := trace + [e], basis + [Last()], seen + [|sightings|];
    }

    /** One guarded patch. The answer may be lost whether or not it took effect: as a failure
        that leaves no exception, or as an exception out of the request. */
    method Patch(key: Key, uid: nat, version: nat, change: Change) returns (r: Result<Obj>, thrown: bool)
      requires Valid()
      modifies `objects, `inflight, `nextUid, `made, `foreign, `trace, `basis, `seen, `sightings, `applied, `unanswered
      ensures Grew() && OnlyOthers(old(objects), objects, foreign, |old(foreign)|, Some(key))
      ensures inflight <= old(inflight)
      ensures trace == old(trace) + [PatchSent(key, uid, change)]
      ensures basis == old(basis) + [old(Last())] && seen == old(seen) + [|old(sightings)|]
      ensures sightings == old(sightings) + if r.Ok? then [Sighting(key, Some(r.value), |trace|)] else []
      ensures applied == old(applied) || applied == old(applied)[|old(trace)| := |foreign|]
      ensures |old(trace)| in applied ==>
                exists o :: Applies(o, uid, version, change) && AsBefore(old(objects), key, o)
                            && key in objects && objects[key] == Patched(o, change)
      ensures |old(trace)| !in applied ==> SameAt(old(objects), objects, key) || Touched(foreign, |old(foreign)|, key)
      ensures r.Ok? ==> |old(trace)| in applied && key in objects && objects[key] == r.value
      ensures unanswered == old(unanswered) + (if thrown then 1 else 0) && (thrown ==> r.Err?) && (r == Err(Died) ==> thrown)
    {
      hide Valid, Persisted, OnlyOthers, Applies, Patched, AsBefore, SameAt, Touched;
      Bounded();
      Interfere();
      ghost var middle, uidsBefore := objects, nextUid;
      r, thrown := PatchNow(key, uid, version, change);
      AfterInterference(old(objects), old(nextUid), middle, uidsBefore, objects, nextUid, foreign, |old(foreign)|, key);
    }

    lemma Bounded()
      requires Valid()
      ensures |trace| !in applied && forall k <- objects :: objects[k].uid < nextUid
    {
    }

    /** The patch reaches the server, or is lost. */
    method PatchNow(key: Key, uid: nat, version: nat, change: Change) returns (r: Result<Obj>, thrown: bool)
      requires Valid()
      modifies `objects, `trace, `basis, `seen, `sightings, `applied, `unanswered
      ensures Valid() && Persisted(old(objects), nextUid, objects, nextUid)
      ensures OnlyOthers(old(objects), objects, foreign, |foreign|, Some(key))
      ensures trace == old(trace) + [PatchSent(key, uid, change)]
      ensures basis == old(basis) + [old(Last())] && seen == old(seen) + [|old(sightings)|]
      ensures sightings == old(sightings) + if r.Ok? then [Sighting(key, Some(r.value), |trace|)] else []
      ensures if |old(trace)| in applied then
                && applied == old(applied)[|old(trace)| := |foreign|]
                && key in old(objects) && Applies(old(objects[key]), uid, version, change)
                && objects == old(objects)[key := Patched(old(objects[key]), change)]
              else applied == old(applied) && objects == old(objects)
      ensures r.Ok? ==> |old(trace)| in applied && key in objects && objects[key] == r.value
      ensures unanswered == old(unanswered) + (if thrown then 1 else 0) && (thrown ==> r.Err?) && (r == Err(Died) ==> thrown)
    {
      hide Valid, Persisted, OnlyOthers, Applies, Patched;
      var reached := Attempt(key, uid, version, change);
      var answered: bool, fault: Fault := *, *;
      if reached && answered {
        Show(key, Some(objects[key]));
        r, thrown := Ok(objects[key]), false;
      } else {
        thrown := *;
        r, thrown := Err(fault), thrown || fault.Died?;
        if thrown {
          MissAnswer();
        }
      }
    }

    /** The patch leaves, and takes effect unless it is lost or its tests fail. */
    method Attempt(key: Key, uid: nat, version: nat, change: Change) returns (reached: bool)
      requires Valid()
      modifies `objects, `trace, `basis, `seen, `applied
      ensures Valid() && Persisted(old(objects), nextUid, objects, nextUid)
      ensures OnlyOthers(old(objects), objects, foreign, |foreign|, Some(key))
      ensures trace == old(trace) + [PatchSent(key, uid, change)]
      ensures basis == old(basis) + [old(Last())] && seen == old(seen) + [|sightings|]
      ensures reached ==> key in objects
      ensures if reached then
                && applied == old(applied)[|old(trace)| := |foreign|]
                && key in old(objects) && Applies(old(objects[key]), uid, version, change)
                && objects == old(objects)[key := Patched(old(objects[key]), change)]
              else |old(trace)| !in applied && applied == old(applied) && objects == old(objects)
    {
      Bounded();
      hide Valid, Persisted, OnlyOthers, Applies, Patched;
      Leave(PatchSent(key, uid, change));
      reached := *;
      reached := reached && key in objects && Applies(objects[key], uid, version, change);
      if reached {
        ApplyPatch(key, change);
        TakeEffect();
      } else {
        Unmoved(objects, nextUid, key, foreign);
      }
    }

    lemma Unmoved(objects: map<Key, Obj>, nextUid: nat, key: Key, foreign: seq<Foreign>)
      ensures Persisted(objects, nextUid, objects, nextUid) && OnlyOthers(objects, objects, foreign, |foreign|, Some(key))
    {
      assert forall k :: SameAt(objects, objects, k);
    }

    ghost method MissAnswer()
      requires Valid()
      modifies `unanswered
      ensures Valid() && unanswered == old(unanswered) + 1
    {
      unanswered := unanswered + 1;
    }

    lemma InPlace(before: map<Key, Obj>, after: map<Key, Obj>, key: Key, foreign: seq<Foreign>)
      requires key in before && key in after && before[key].uid == after[key].uid && after == before[key := after[key]]
      ensures OnlyOthers(before, after, foreign, |foreign|, Some(key))
    {
      forall k
        ensures SameAt(before, after, k) || Some(key) == Some(k)
      {
      }
    }

    /** Change an object in place: the version moves on, and a nonce can only vanish. */
    method Put(key: Key, o: Obj)
      requires Valid() && key in objects && o.uid == objects[key].uid && o.version == objects[key].version + 1
      requires o.mark == objects[key].mark || o.mark.Unmarked?
      modifies `objects
      ensures Grew() && objects == old(objects)[key := o]
    {
      objects := objects[key := o];
    }

    method ApplyPatch(key: Key, change: Change)
      requires Valid() && key in objects
      modifies `objects
      ensures Valid() && Persisted(old(objects), nextUid, objects, nextUid)
      ensures OnlyOthers(old(objects), objects, foreign, |foreign|, Some(key))
      ensures objects == old(objects)[key := Patched(old(objects[key]), change)]
    {
      Put(key, Patched(objects[key], change));
      InPlace(old(objects), objects, key, foreign);
    }

    /** The last request has had its effect. */
    ghost method TakeEffect()
      requires Valid() && trace != []
      modifies `applied
      ensures Valid() && applied == old(applied)[|trace| - 1 := |foreign|]
    {
      applied := applied[|trace| - 1 := |foreign|];
    }

    /** An answer arrives. */
    ghost method Show(key: Key, found: Option<Obj>)
      requires Valid()
      modifies `sightings
      ensures Valid() && sightings == old(sightings) + [Sighting(key, found, |trace|)]
    {
      sightings := sightings + [Sighting(key, found, |trace|)];
    }

    /** A create that was never sent before is in flight afterwards only if no definite
        answer came. */
    method Create(post: Post) returns (r: Reply)
      requires Valid() && post.nonce < nextNonce
      modifies `objects, `inflight, `nextUid, `made, `foreign, `trace, `basis, `seen, `replies
      ensures Grew()
      ensures trace == old(trace) + [PostSent(post)] && replies == old(replies)[|old(trace)| := r]
      ensures basis == old(basis) + [old(Last())] && seen == old(seen) + [|sightings|]
      ensures r.Admitted? ==> post.key in objects && objects[post.key] == r.obj && r.obj.mark == Ours(post.nonce)
      ensures inflight <= old(inflight) + {post}
      ensures PostSent(post) !in old(trace) && (r.Admitted? || r.AlreadyExists?) ==> post !in inflight
    {
      r := Submit(post);
      replies := replies[|trace| - 1 := r];
    }

    method Submit(post: Post) returns (r: Reply)
      requires Valid() && post.nonce < nextNonce
      modifies `objects, `inflight, `nextUid, `made, `foreign, `trace, `basis, `seen
      ensures Grew()
      ensures trace == old(trace) + [PostSent(post)]
      ensures basis == old(basis) + [old(Last())] && seen == old(seen) + [|sightings|]
      ensures r.Admitted? ==> post.key in objects && objects[post.key] == r.obj && r.obj.mark == Ours(post.nonce)
      ensures inflight <= old(inflight) + {post}
      ensures PostSent(post) !in old(trace) && (r.Admitted? || r.AlreadyExists?) ==> post !in inflight
    {
      hide Valid, Persisted, SentTwice, OnlyOthers, LandOnce;
      NeverSent(post);
      Interfere();
      ghost var middle, uidsBefore := objects, nextUid;
      Again(post);
      Leave(PostSent(post));
      r := Settle(post);
      PersistedAgain(old(objects), old(nextUid), middle, uidsBefore, objects, nextUid);
    }

    lemma NeverSent(post: Post)
      requires Valid()
      ensures post in inflight ==> PostSent(post) in trace
    {
    }

    /** What is known of a create that was sent before. */
    lemma Again(post: Post)
      requires Valid()
      ensures post in inflight || (exists u <- made :: made[u] == post) ==> SentTwice(trace + [PostSent(post)], post)
    {
      if PostSent(post) in trace {
        Resent(trace, post);
      }
    }

    /** The create reaches the server, or is lost, or waits. */
    method Settle(post: Post) returns (r: Reply)
      requires Valid() && PostSent(post) in trace
      requires post in inflight || (exists u <- made :: made[u] == post) ==> SentTwice(trace, post)
      modifies `objects, `inflight, `nextUid, `made
      ensures Grew() && inflight <= old(inflight) + {post}
      ensures r.Admitted? || r.AlreadyExists? ==> inflight == old(inflight)
      ensures r.Admitted? ==> post.key in objects && objects[post.key] == r.obj && r.obj.mark == Ours(post.nonce)
    {
      var fate: nat := *;
      r := if fate % 3 == 0 then NoReply else if fate % 3 == 1 then Thrown else Gone;
      if fate < 3 {
        return;                             // lost on the way
      } else if fate < 6 {
        Delay(post);                        // may land later
      } else if post.key in objects {
        r := if fate < 9 then r else AlreadyExists;
      } else {
        var admitted: Body := *;
        Land(post, admitted);
        r := if fate < 9 then r else Admitted(objects[post.key]);
      }
    }

    /** The create stays on its way. */
    method Delay(post: Post)
      requires Valid() && PostSent(post) in trace && forall u <- made :: made[u] == post ==> SentTwice(trace, post)
      modifies `inflight
      ensures Valid() && inflight == old(inflight) + {post}
    {
      inflight := inflight + {post};
    }

    /** What carries these labels? */
    method List(query: Key) returns (r: Result<Option<Obj>>)
      requires Valid()
      modifies `objects, `inflight, `nextUid, `made, `foreign, `sightings
      ensures Grew() && OnlyOthers(old(objects), objects, foreign, |old(foreign)|, None)
      ensures inflight <= old(inflight)
      ensures sightings == old(sightings) + if r.Ok? then [Sighting(query, r.value, |trace|)] else []
    {
      Interfere();
      r := *;
      if r.Ok? {
        Show(query, r.value);
      }
    }

    /** Delete exactly this object in exactly this version: any other is refused, and
        none at all counts as deleted. It may linger until its finalizers are done. */
    method Delete(key: Key, uid: nat, version: nat) returns (r: Result<()>)
      requires Valid()
      modifies `objects, `inflight, `nextUid, `made, `foreign, `trace, `basis, `seen
      ensures Grew() && NoneLost(old(objects) - {key}, objects, foreign, |old(foreign)|)
      ensures inflight <= old(inflight)
      ensures trace == old(trace) + [DeleteSent(key, uid, version)]
      ensures basis == old(basis) + [old(Last())] && seen == old(seen) + [|sightings|]
    {
      hide Valid, Persisted, Touched, Taken, SameAt;
      Interfere();
      Leave(DeleteSent(key, uid, version));
      var fate: nat := *;
      var fault := if fate % 2 == 0 then Raised else Died;
      if fate < 2 || (key in objects && (objects[key].uid != uid || objects[key].version != version)) {
        return Err(fault);
      }
      if key in objects {
        ghost var middle := objects;
        Fell(key);
        PersistedAgain(old(objects), old(nextUid), middle, nextUid, objects, nextUid);
      }
      r := if fate < 4 then Err(fault) else Ok(());
    }

    /** An object goes, at once or as soon as its finalizers are done. */
    method Fell(key: Key)
      requires Valid() && key in objects
      modifies `objects
      ensures Valid() && Persisted(old(objects), nextUid, objects, nextUid)
      ensures forall k <- old(objects) :: k != key ==> k in objects && objects[k] == old(objects[k])
    {
      var lingers: bool := *;
      if lingers {
        Put(key, objects[key].(version := objects[key].version + 1));
      } else {
        objects := objects - {key};
      }
    }

    /** The compare-and-swap of a Kustomization: a merge patch (section 2 of RFC 7396)
        that names the resourceVersion and sets the suspension together with the
        reconciliation settings. */
    method Suspend(key: Key, version: nat, suspend: bool) returns (r: Result<Obj>)
      requires Valid()
      modifies `objects, `inflight, `nextUid, `made, `foreign, `trace, `basis, `seen
      ensures Grew() && NoneLost(old(objects), objects, foreign, |old(foreign)|)
      ensures inflight <= old(inflight)
      ensures trace == old(trace) + [SuspendSent(key, suspend)]
      ensures basis == old(basis) + [old(Last())] && seen == old(seen) + [|sightings|]
      ensures r.Ok? ==> key in objects && objects[key] == r.value
    {
      Interfere();
      Leave(SuspendSent(key, suspend));
      var fate: nat := *;
      var fault := if fate % 2 == 0 then Raised else Died;
      if fate < 2 || key !in objects || objects[key].version != version {
        return Err(fault);
      }
      var settings: nat := *;
      var o := objects[key];
      Put(key, Obj(o.uid, version + 1, o.mark, Body(settings, suspend, o.body.tracking)));
      r := if fate < 4 then Err(fault) else Ok(objects[key]);
    }
  }
}
