/** The one label pair that Flux may leave on an object of the participant gateway,
    and the comparison that looks past exactly that pair. */
module FluxTracking {
  import opened Wrappers
  import opened Selectors

  const FLUX_NAMESPACE := "flux-roebel-staging"
  const GATEWAY_NAMESPACE := "stadtstack-roebel-web-preview"
  const WORKBENCH_NAMESPACE := "stadtstack-roebel-staging-lab"

  datatype Owner = Gateway | WorkbenchIngress

  /** What the caller is willing to see. */
  datatype Mode = MustBeAbsent | MustBeComplete | EitherWay

  datatype Presence = Absent | Complete

  /** An object: its labels, and the rest of its normalized semantics. */
  datatype Labelled<+T> = Labelled(labels: Labels, rest: T)

  datatype Checked<+T> = Checked(normalized: Labelled<T>, presence: Presence)

  const NAME_LABEL := "kustomize.toolkit.fluxcd.io/name"
  const NAMESPACE_LABEL := "kustomize.toolkit.fluxcd.io/namespace"

  function ExpectedPair(owner: Owner): Labels {
    map[NAME_LABEL := match owner
                      case Gateway => "roebel-staging-participant-gateway"
                      case WorkbenchIngress => "roebel-staging-participant-workbench-ingress",
        NAMESPACE_LABEL := FLUX_NAMESPACE]
  }

  predicate Allowed(mode: Mode, presence: Presence) {
    mode.EitherWay? || mode.MustBeAbsent? == presence.Absent?
  }

  /** `require_flux_tracking_semantics_v4`: strip a complete pair, then compare. */
  function RequireTracking<T(==)>(live: Labelled<T>, desired: Labelled<T>, owner: Owner, mode: Mode): Result<Checked<T>> {
    var pair := ExpectedPair(owner);
    var _ :- Require(pair.Keys !! desired.labels.Keys);
    var presence :- if live.labels == desired.labels then Ok(Absent)
                    else if live.labels == desired.labels + pair then Ok(Complete)
                    else Err(Raised);
    var _ :- Require(Allowed(mode, presence));
    var normalized := if presence.Complete? then live.(labels := live.labels - pair.Keys) else live;
    var _ :- Require(normalized == desired);
    Ok(Checked(normalized, presence))
  }

  /** At one label, the live object says what the desired one says. */
  predicate AgreeAt(live: Labels, desired: Labels, k: string) {
    (k in live <==> k in desired) && (k in live && k in desired ==> live[k] == desired[k])
  }

  /** The pair is there in full, or not there at all. */
  predicate PairIs(live: Labels, owner: Owner, presence: Presence) {
    var pair := ExpectedPair(owner);
    if presence.Absent? then pair.Keys !! live.Keys
    else forall k <- pair :: k in live && live[k] == pair[k]
  }

  /** What the labels must be when the pair is there, or is not. */
  function Expected(desired: Labels, owner: Owner, presence: Presence): Labels {
    if presence.Absent? then desired else desired + ExpectedPair(owner)
  }

  /** Agreeing on every other label, with the pair exactly there or exactly not there,
      determines the labels. */
  lemma LabelsDetermined(live: Labels, desired: Labels, owner: Owner, presence: Presence)
    requires ExpectedPair(owner).Keys !! desired.Keys
    ensures live == Expected(desired, owner, presence) <==>
            PairIs(live, owner, presence) && forall k :: k !in ExpectedPair(owner) ==> AgreeAt(live, desired, k)
  {
    var pair, expected := ExpectedPair(owner), Expected(desired, owner, presence);
    if PairIs(live, owner, presence) && forall k :: k !in pair ==> AgreeAt(live, desired, k) {
      forall k | k in live || k in expected
        ensures AgreeAt(live, expected, k)
      {
        assert k !in pair ==> AgreeAt(live, desired, k);
      }
      assert live == expected;
    }
  }

  /** The verdict, in terms of the labels as a whole. */
  lemma AcceptedLabels<T>(live: Labelled<T>, desired: Labelled<T>, owner: Owner, mode: Mode, presence: Presence)
    requires ExpectedPair(owner).Keys !! desired.labels.Keys
    ensures RequireTracking(live, desired, owner, mode) == Ok(Checked(desired, presence)) <==>
            live.rest == desired.rest && Allowed(mode, presence) && live.labels == Expected(desired.labels, owner, presence)
    ensures RequireTracking(live, desired, owner, mode).Ok? ==>
              RequireTracking(live, desired, owner, mode).value.normalized == desired
  {
    var pair := ExpectedPair(owner);
    assert desired.labels + pair - pair.Keys == desired.labels;
    assert NAME_LABEL in pair && NAME_LABEL !in desired.labels && NAME_LABEL in desired.labels + pair;
    hide ExpectedPair;
  }

  /** The check looks past exactly one thing. It accepts an object in a given presence
      if and only if the rest is as desired, every label but the two of the pair is as
      desired, and the pair is exactly there or exactly not there, as the caller allows;
      and then what it returns is the desired object. */
  lemma OnlyTheExactPairIsStripped<T>(live: Labelled<T>, desired: Labelled<T>, owner: Owner, mode: Mode, presence: Presence)
    requires ExpectedPair(owner).Keys !! desired.labels.Keys
    ensures RequireTracking(live, desired, owner, mode) == Ok(Checked(desired, presence)) <==>
            && live.rest == desired.rest && Allowed(mode, presence) && PairIs(live.labels, owner, presence)
            && (forall k :: k !in ExpectedPair(owner) ==> AgreeAt(live.labels, desired.labels, k))
    ensures RequireTracking(live, desired, owner, mode).Ok? ==>
              RequireTracking(live, desired, owner, mode).value.normalized == desired
  {
    hide RequireTracking, AgreeAt, PairIs, ExpectedPair, Expected, Allowed;
    AcceptedLabels(live, desired, owner, mode, presence);
    LabelsDetermined(live.labels, desired.labels, owner, presence);
  }
}
