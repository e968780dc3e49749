/** The scan of every network policy in the cluster. Policies add up: one more policy
    can only open more. So the scan must show that nothing beyond the two owned policies
    and ten reviewed peers opens the way to the participant gateway or its workbench. */
module PolicyUnion {
  import opened Wrappers
  import opened Selectors
  import opened FluxTracking

  const WORKBENCH_NAME := "e2e-workbench"
  const WORKBENCH_PORT := 18083

  /** A port as it is written down: a number, a text of digits, or a name that each
      Pod resolves for itself. */
  datatype Port = Unset | Number(value: int) | Numeral(value: int) | Name(name: string)

  datatype PortEntry = PortEntry(protocol: Option<string>, port: Port, endPort: Option<int>)

  datatype Peer = Namespaces(selector: Selector) | Addresses(cidr: string) | OtherPeer(text: string)

  /** `unknown` holds any fields besides `from` and `ports`. */
  datatype Rule = Rule(from: Option<seq<Peer>>, ports: Option<seq<PortEntry>>, unknown: set<string>)

  datatype Spec = Spec(podSelector: Option<Selector>, policyTypes: Option<seq<string>>,
                       ingress: Option<seq<Rule>>, egress: Option<seq<string>>, unknown: set<string>)

  datatype Policy = Policy(namespace: string, name: string, uid: string, labels: Labels, spec: Spec)

  type Id = (string, string)

  datatype Binding = Binding(uid: string, desired: Labelled<Spec>, owner: Owner)

  datatype CiliumSpec = CiliumSpec(endpointSelector: Option<Selector>)

  datatype CiliumPolicy = CiliumPolicy(namespace: string, specs: Option<seq<CiliumSpec>>, spec: Option<CiliumSpec>)

  /** What the scan reads. Without the Cilium API group there are no Cilium policies. */
  datatype Cluster = Cluster(policies: seq<Policy>, cilium: Option<(seq<CiliumPolicy>, seq<CiliumPolicy>)>)

  /** The labels of the Pods found, per namespace and per policy family. */
  datatype LabelSets = LabelSets(gateway: seq<Labels>, workbench: seq<Labels>,
                                 ciliumGateway: seq<Labels>, ciliumWorkbench: seq<Labels>)

  datatype Report = Report(scanned: nat, ownedValidated: seq<Id>, compatible: seq<Id>, egressOnly: seq<Id>)

  function PodSelector(spec: Spec): Selector {
    if spec.podSelector.Some? then spec.podSelector.value else Selector(map[], [])
  }

  function EndpointSelector(spec: CiliumSpec): Selector {
    if spec.endpointSelector.Some? then spec.endpointSelector.value else Selector(map[], [])
  }

  // ------------------------------------------------------------------ ports

  predicate EntryAllows(e: PortEntry) {
    && (e.protocol.None? || e.protocol.value == "TCP")
    && match e.port
       case Unset => true
       case Name(_) => true
       case _ => e.port.value <= WORKBENCH_PORT <= (if e.endPort.Some? then e.endPort.value else e.port.value)
  }

  /** `_allows_workbench_port` */
  method AllowsWorkbenchPort(spec: Spec) returns (allows: bool)
    ensures allows <==> PortOpen(spec)
  {
    var rules := if spec.ingress.Some? then spec.ingress.value else [];
    for i := 0 to |rules|
      invariant forall k :: 0 <= k < i ==> !RuleOpen(rules[k])
    {
      var ports := rules[i].ports;
      if ports.None? || ports.value == [] {
        assert RuleOpen(rules[i]);
        return true;
      }
      for j := 0 to |ports.value|
        invariant forall k :: 0 <= k < j ==> !EntryAllows(ports.value[k])
      {
        if EntryAllows(ports.value[j]) {
          assert RuleOpen(rules[i]);
          return true;
        }
      }
    }
    return false;
  }

  predicate RuleOpen(rule: Rule) {
    rule.ports.None? || rule.ports.value == [] || exists e <- rule.ports.value :: EntryAllows(e)
  }

  predicate PortOpen(spec: Spec) {
    spec.ingress.Some? && exists rule <- spec.ingress.value :: RuleOpen(rule)
  }

  // ------------------------------------- what the cluster does with a policy

  /** Does an entry open the workbench port, when the Pod resolves names this way? */
  predicate EntryAdmits(e: PortEntry, resolve: string -> int) {
    && (e.protocol.None? || e.protocol.value == "TCP")
    && match e.port
       case Unset => true
       case Name(name) => resolve(name) == WORKBENCH_PORT
       case _ => e.port.value <= WORKBENCH_PORT <= (if e.endPort.Some? then e.endPort.value else e.port.value)
  }

  predicate PortAdmits(rule: Rule, resolve: string -> int) {
    rule.ports.None? || rule.ports.value == [] || exists e <- rule.ports.value :: EntryAdmits(e, resolve)
  }

  /** An empty or missing `from` means everybody. */
  predicate PeerAdmits<S>(rule: Rule, source: S, reaches: (Peer, S) -> bool) {
    rule.from.None? || rule.from.value == [] || exists peer <- rule.from.value :: reaches(peer, source)
  }

  predicate RuleAdmits<S>(rule: Rule, source: S, reaches: (Peer, S) -> bool, resolve: string -> int) {
    PortAdmits(rule, resolve) && PeerAdmits(rule, source, reaches)
  }

  /** A policy speaks about ingress unless its types say otherwise. */
  predicate Admits<S>(spec: Spec, source: S, reaches: (Peer, S) -> bool, resolve: string -> int) {
    && (spec.policyTypes.None? || "Ingress" in spec.policyTypes.value)
    && spec.ingress.Some?
    && exists rule <- spec.ingress.value :: RuleAdmits(rule, source, reaches, resolve)
  }

  predicate Selects(spec: Spec, pod: Labels) {
    Matches(PodSelector(spec), pod).Yes?
  }

  // ------------------------------------------------- the reviewed exception

  const REVIEWED_PEERS: seq<Peer> := [
    Namespaces(Selector(map["kubernetes.io/metadata.name" := "ingress-system"], [])),
    Addresses("10.42.0.10/32"), Addresses("10.42.0.11/32"), Addresses("10.42.0.12/32"),
    Addresses("10.244.0.0/32"), Addresses("10.244.1.0/32"), Addresses("10.244.2.0/32"),
    Addresses("10.244.0.1/32"), Addresses("10.244.1.1/32"), Addresses("10.244.2.1/32")]

  const REVIEWED_SELECTOR := Selector(map["app.kubernetes.io/component" := "e2e-workbench",
                                          "app.kubernetes.io/part-of" := "stadtstack-roebel-staging-lab"], [])

  /** `_is_exact_reviewed_public_workbench_ingress_v4` */
  predicate IsReviewedIngress(spec: Spec) {
    && spec.unknown == {} && spec.podSelector == Some(REVIEWED_SELECTOR)
    && spec.policyTypes == Some(["Ingress"]) && (spec.egress.None? || spec.egress.value == [])
    && spec.ingress.Some? && |spec.ingress.value| == 1
    && var rule := spec.ingress.value[0];
    && rule.unknown == {} && rule.from.Some?
    && rule.ports == Some([PortEntry(Some("TCP"), Number(WORKBENCH_PORT), None)])
    && |rule.from.value| == |REVIEWED_PEERS| && Elements(rule.from.value) == Elements(REVIEWED_PEERS)
  }

  /** `_is_explicit_workbench_egress_only_policy_v4` */
  predicate IsEgressOnly(spec: Spec) {
    spec.policyTypes == Some(["Egress"]) && (spec.ingress.None? || spec.ingress.value == [])
  }

  // ---------------------------------------------------- the labels to defend

  datatype Pod = Pod(labels: Labels, serviceAccount: string)

  /** Cilium selects on two further labels that every Pod gets. */
  function Identity(namespace: string, serviceAccount: Option<string>): Labels {
    map["io.kubernetes.pod.namespace" := namespace]
    + if serviceAccount.None? then map[] else map["io.cilium.k8s.policy.serviceaccount" := serviceAccount.value]
  }

  /** `_target_policy_label_sets_v4`, for one target: the labels of the Pods found under
      the fixed selector, or just the fixed labels when there is no Pod yet. */
  method TargetLabelSets(pods: seq<Pod>, fixed: Labels, namespace: string, account: Option<string>)
    returns (r: Result<(seq<Labels>, seq<Labels>)>)
    ensures r.Ok? <==> forall p <- pods :: Extends(fixed, p.labels) && p.serviceAccount != ""
                                           && (account.Some? ==> p.serviceAccount == account.value)
    ensures r.Ok? && pods != [] ==> |r.value.0| == |r.value.1| == |pods|
    ensures r.Ok? ==> forall k :: 0 <= k < |pods| ==>
              && k < |r.value.0| && r.value.0[k] == pods[k].labels
              && k < |r.value.1| && r.value.1[k] == pods[k].labels + Identity(namespace, Some(pods[k].serviceAccount))
    ensures r.Ok? && pods == [] ==> r.value == ([fixed], [fixed + Identity(namespace, account)])
    ensures r.Ok? ==> r.value.0 != [] && forall known <- r.value.0 :: Extends(fixed, known)
  {
    var plain: seq<Labels>, cilium: seq<Labels> := [], [];
    for i := 0 to |pods|
      invariant |plain| == |cilium| == i
      invariant forall k :: 0 <= k < i ==> plain[k] == pods[k].labels && Extends(fixed, pods[k].labels)
      invariant forall k :: 0 <= k < i ==> cilium[k] == pods[k].labels + Identity(namespace, Some(pods[k].serviceAccount))
      invariant forall k :: 0 <= k < i ==> pods[k].serviceAccount != "" && (account.Some? ==> pods[k].serviceAccount == account.value)
    {
      assert pods[i] in pods;
      var _ :- Require(Extends(fixed, pods[i].labels) && pods[i].serviceAccount != "");
      var _ :- Require(account.Some? ==> pods[i].serviceAccount == account.value);
      plain := plain + [pods[i].labels];
      cilium := cilium + [pods[i].labels + Identity(namespace, Some(pods[i].serviceAccount))];
    }
    if plain == [] {
      plain, cilium := [fixed], [fixed + Identity(namespace, account)];
    }
    r := Ok((plain, cilium));
  }

  // ------------------------------------------------------------- the scan

  /** Could the selector match any of these label sets, once they have grown? */
  function CouldMatchAny(s: Selector, sets: seq<Labels>): Verdict {
    if sets == [] then No
    else match CouldMatch(s, sets[0])
      case No => CouldMatchAny(s, sets[1..])
      case definite => definite
  }

  function CouldMatchAnySpec(specs: seq<CiliumSpec>, sets: seq<Labels>): Verdict {
    if specs == [] then No
    else match CouldMatchAny(EndpointSelector(specs[0]), sets)
      case No => CouldMatchAnySpec(specs[1..], sets)
      case definite => definite
  }

  predicate OwnedAsDesired(policy: Policy, binding: Binding, mode: Mode) {
    policy.uid == binding.uid && RequireTracking(Labelled(policy.labels, policy.spec), binding.desired, binding.owner, mode).Ok?
  }

  predicate CompatibleWorkbench(policy: Policy) {
    if policy.name == WORKBENCH_NAME then !PortOpen(policy.spec)
    else (!PortOpen(policy.spec) || IsReviewedIngress(policy.spec)) && policy.name != "" && policy.uid != ""
  }

  predicate Acceptable(policy: Policy, sets: LabelSets, owned: map<Id, Binding>, mode: Mode) {
    var id := (policy.namespace, policy.name);
    if id in owned then OwnedAsDesired(policy, owned[id], mode)
    else if policy.namespace == GATEWAY_NAMESPACE then CouldMatchAny(PodSelector(policy.spec), sets.gateway).No?
    else if policy.namespace != WORKBENCH_NAMESPACE then true
    else match CouldMatchAny(PodSelector(policy.spec), sets.workbench)
      case No => true
      case Yes => CompatibleWorkbench(policy)
      case Invalid => false
  }

  /** The specs that the scan looks at: the list, or else the single one. */
  function Inspected(policy: CiliumPolicy): seq<CiliumSpec> {
    if policy.specs.Some? then policy.specs.value
    else [if policy.spec.Some? then policy.spec.value else CiliumSpec(None)]
  }

  function Candidates(policy: CiliumPolicy, clusterwide: bool, sets: LabelSets): seq<Labels> {
    (if clusterwide || policy.namespace == GATEWAY_NAMESPACE then sets.ciliumGateway else [])
    + (if clusterwide || policy.namespace == WORKBENCH_NAMESPACE then sets.ciliumWorkbench else [])
  }

  predicate CiliumAcceptable(policy: CiliumPolicy, clusterwide: bool, sets: LabelSets) {
    var candidates := Candidates(policy, clusterwide, sets);
    candidates == [] || CouldMatchAnySpec(Inspected(policy), candidates).No?
  }

  predicate AllCiliumAcceptable(cluster: Cluster, sets: LabelSets) {
    cluster.cilium.Some? ==>
      && (forall p <- cluster.cilium.value.0 :: CiliumAcceptable(p, false, sets))
      && (forall p <- cluster.cilium.value.1 :: CiliumAcceptable(p, true, sets))
  }

  /** The policies found under an owned name, in scan order. */
  function OwnedFound(policies: seq<Policy>, owned: map<Id, Binding>): seq<Id> {
    if policies == [] then []
    else
      var last := policies[|policies| - 1];
      var id := (last.namespace, last.name);
      OwnedFound(policies[..|policies| - 1], owned) + if id in owned then [id] else []
  }

  /** A policy that selects the workbench, is not owned and may stay. */
  predicate IsCompatible(policy: Policy, sets: LabelSets, owned: map<Id, Binding>) {
    && (policy.namespace, policy.name) !in owned && policy.namespace == WORKBENCH_NAMESPACE && policy.name != WORKBENCH_NAME
    && CouldMatchAny(PodSelector(policy.spec), sets.workbench).Yes?
  }

  /** The compatible policies found, in scan order; with `egressOnly`, just those that
      cannot take part in the union of ingress rules at all. */
  function CompatibleFound(policies: seq<Policy>, sets: LabelSets, owned: map<Id, Binding>, egressOnly: bool): seq<Id> {
    if policies == [] then []
    else
      var last := policies[|policies| - 1];
      CompatibleFound(policies[..|policies| - 1], sets, owned, egressOnly)
      + if IsCompatible(last, sets, owned) && (egressOnly ==> IsEgressOnly(last.spec)) then [(last.namespace, last.name)] else []
  }

  predicate ScanPasses(cluster: Cluster, sets: LabelSets, owned: map<Id, Binding>, mode: Mode) {
    && (forall p <- cluster.policies :: Acceptable(p, sets, owned, mode))
    && AllCiliumAcceptable(cluster, sets)
    && Elements(OwnedFound(cluster.policies, owned)) == owned.Keys
    && |OwnedFound(cluster.policies, owned)| == |owned|
  }

  /** One step of the Kubernetes family. */
  method Judge(policy: Policy, sets: LabelSets, owned: map<Id, Binding>, mode: Mode, report: Report)
    returns (r: Result<Report>)
    ensures r.Ok? <==> Acceptable(policy, sets, owned, mode)
    ensures r.Ok? ==> r.value.scanned == report.scanned + 1
    ensures r.Ok? ==> r.value.ownedValidated ==
                      report.ownedValidated + if (policy.namespace, policy.name) in owned then [(policy.namespace, policy.name)] else []
    ensures r.Ok? ==> r.value.compatible ==
                      report.compatible + if IsCompatible(policy, sets, owned) then [(policy.namespace, policy.name)] else []
    ensures r.Ok? ==> r.value.egressOnly ==
                      report.egressOnly + if IsCompatible(policy, sets, owned) && IsEgressOnly(policy.spec)
                                          then [(policy.namespace, policy.name)] else []
  {
    var id := (policy.namespace, policy.name);
    var next := report.(scanned := report.scanned + 1);
    if id in owned {
      var binding := owned[id];
      var _ :- Require(binding.uid == policy.uid);
      var _ :- RequireTracking(Labelled(policy.labels, policy.spec), binding.desired, binding.owner, mode);
      return Ok(next.(ownedValidated := next.ownedValidated + [id]));
    }
    var selector := PodSelector(policy.spec);
    if policy.namespace == GATEWAY_NAMESPACE {
      var _ :- Require(CouldMatchAny(selector, sets.gateway).No?);
    }
    if policy.namespace == WORKBENCH_NAMESPACE {
      var verdict := CouldMatchAny(selector, sets.workbench);
      var _ :- Require(!verdict.Invalid?);
      if verdict.Yes? {
        var open := AllowsWorkbenchPort(policy.spec);
        if policy.name == WORKBENCH_NAME {
          var _ :- Require(!open);
        } else {
          var _ :- Require(!open || IsReviewedIngress(policy.spec));
          var _ :- Require(policy.name != "" && policy.uid != "");
          next := next.(compatible := next.compatible + [id]);
          if IsEgressOnly(policy.spec) {
            next := next.(egressOnly := next.egressOnly + [id]);
          }
        }
      }
    }
    r := Ok(next);
  }

  method JudgeCilium(policies: seq<CiliumPolicy>, clusterwide: bool, sets: LabelSets, report: Report)
    returns (r: Result<Report>)
    ensures r.Ok? <==> forall p <- policies :: CiliumAcceptable(p, clusterwide, sets)
    ensures r.Ok? ==> r.value == report.(scanned := report.scanned + |policies|)
  {
    for i := 0 to |policies|
      invariant forall k :: 0 <= k < i ==> CiliumAcceptable(policies[k], clusterwide, sets)
    {
      var candidates := Candidates(policies[i], clusterwide, sets);
      if candidates != [] && !CouldMatchAnySpec(Inspected(policies[i]), candidates).No? {
        assert policies[i] in policies;
        return Err(Raised);
      }
    }
    r := Ok(report.(scanned := report.scanned + |policies|));
  }

  /** The Kubernetes family, in scan order. */
  method JudgeAll(policies: seq<Policy>, sets: LabelSets, owned: map<Id, Binding>, mode: Mode) returns (r: Result<Report>)
    ensures r.Ok? <==> forall p <- policies :: Acceptable(p, sets, owned, mode)
    ensures r.Ok? ==> r.value.scanned == |policies| && r.value.ownedValidated == OwnedFound(policies, owned)
                      && r.value.compatible == CompatibleFound(policies, sets, owned, false)
                      && r.value.egressOnly == CompatibleFound(policies, sets, owned, true)
  {
    hide Acceptable, IsCompatible, IsEgressOnly;
    var report := Report(0, [], [], []);
    for i := 0 to |policies|
      invariant report.scanned == i && report.ownedValidated == OwnedFound(policies[..i], owned)
      invariant report.compatible == CompatibleFound(policies[..i], sets, owned, false)
      invariant report.egressOnly == CompatibleFound(policies[..i], sets, owned, true)
      invariant forall k :: 0 <= k < i ==> Acceptable(policies[k], sets, owned, mode)
    {
      assert policies[i] in policies;
      assert policies[..i + 1][..i] == policies[..i];
      report :- Judge(policies[i], sets, owned, mode, report);
    }
    assert policies[..|policies|] == policies;
    r := Ok(report);
  }

  /** `policy_union_v4`: the scan returns exactly when every policy passes and the
      owned ones were all found, each once. */
  method PolicyUnion(cluster: Cluster, sets: LabelSets, owned: map<Id, Binding>, mode: Mode) returns (r: Result<Report>)
    ensures r.Ok? <==> ScanPasses(cluster, sets, owned, mode)
    ensures r.Ok? ==> r.value.ownedValidated == OwnedFound(cluster.policies, owned)
                      && r.value.compatible == CompatibleFound(cluster.policies, sets, owned, false)
                      && r.value.egressOnly == CompatibleFound(cluster.policies, sets, owned, true)
    ensures r.Ok? ==> r.value.scanned == |cluster.policies| + if cluster.cilium.None? then 0
                                                             else |cluster.cilium.value.0| + |cluster.cilium.value.1|
  {
    hide Acceptable, CiliumAcceptable, OwnedFound, CompatibleFound, Elements;
    var report :- JudgeAll(cluster.policies, sets, owned, mode);
    if cluster.cilium.Some? {
      report :- JudgeCilium(cluster.cilium.value.0, false, sets, report);
      report :- JudgeCilium(cluster.cilium.value.1, true, sets, report);
    }
    var _ :- Require(Elements(report.ownedValidated) == owned.Keys && |report.ownedValidated| == |owned|);
    r := Ok(report);
  }

  // --------------------------------------------------------------- what follows

  /** Equal length and equal set: the same elements, each as often. */
  lemma {:induction false} SameLengthSameSet<T>(s: seq<T>, distinct: set<T>)
    requires Elements(s) == distinct && |s| == |distinct|
    ensures multiset(s) == multiset(distinct)
  {
    if s == [] {
      assert distinct == {};
    } else {
      var x, rest := s[0], s[1..];
      assert s == [x] + rest;
      if x in rest {
        assert Elements(rest) == distinct;
        FewElements(rest);
      } else {
        assert Elements(rest) == distinct - {x};
        SameLengthSameSet(rest, distinct - {x});
        assert multiset(distinct) == multiset{x} + multiset(distinct - {x});
      }
    }
  }

  lemma FewElements<T>(s: seq<T>)
    ensures |Elements(s)| <= |s|
  {
    if s != [] {
      assert Elements(s) == Elements(s[1..]) + {s[0]};
      FewElements(s[1..]);
    }
  }

  /** Every owned policy was found, and none was found twice. */
  lemma OwnedPoliciesFoundOnce(cluster: Cluster, sets: LabelSets, owned: map<Id, Binding>, mode: Mode)
    requires ScanPasses(cluster, sets, owned, mode)
    ensures multiset(OwnedFound(cluster.policies, owned)) == multiset(owned.Keys)
  {
    assert |owned| == |owned.Keys|;
    SameLengthSameSet(OwnedFound(cluster.policies, owned), owned.Keys);
  }

  /** The port scan is as precise as it can be without knowing how names resolve: it
      says open exactly when some way of resolving them makes the policy admit somebody. */
  lemma OpenMeansSomeResolutionAdmits(spec: Spec, rule: Rule)
    requires spec.ingress.Some? && rule in spec.ingress.value
    ensures RuleOpen(rule) <==> exists resolve: string -> int :: PortAdmits(rule, resolve)
  {
    var toTheWorkbench := (name: string) => WORKBENCH_PORT;
    if RuleOpen(rule) {
      assert PortAdmits(rule, toTheWorkbench) by {
        if rule.ports.Some? && rule.ports.value != [] {
          var e :| e in rule.ports.value && EntryAllows(e);
          assert EntryAdmits(e, toTheWorkbench);
        }
      }
    }
    forall resolve: string -> int | PortAdmits(rule, resolve)
      ensures RuleOpen(rule)
    {
      if rule.ports.Some? && rule.ports.value != [] {
        var e :| e in rule.ports.value && EntryAdmits(e, resolve);
        assert EntryAllows(e);
      }
    }
  }

  lemma NoMatchAny(s: Selector, sets: seq<Labels>, known: Labels, pod: Labels)
    requires known in sets && Extends(known, pod) && Matches(s, pod).Yes?
    ensures !CouldMatchAny(s, sets).No?
  {
    ConservativeIsSound(s, known, pod);
    if known != sets[0] {
      NoMatchAny(s, sets[1..], known, pod);
    }
  }

  lemma NoMatchAnySpec(specs: seq<CiliumSpec>, spec: CiliumSpec, sets: seq<Labels>, known: Labels, pod: Labels)
    requires spec in specs && known in sets && Extends(known, pod) && Matches(EndpointSelector(spec), pod).Yes?
    ensures !CouldMatchAnySpec(specs, sets).No?
  {
    NoMatchAny(EndpointSelector(spec), sets, known, pod);
    if spec != specs[0] {
      NoMatchAnySpec(specs[1..], spec, sets, known, pod);
    }
  }

  /** In the gateway namespace, only owned policies select a gateway Pod, whatever
      further labels the Pod has or will get. */
  lemma OnlyOwnedSelectTheGateway(cluster: Cluster, sets: LabelSets, owned: map<Id, Binding>, mode: Mode,
                                  policy: Policy, known: Labels, pod: Labels)
    requires ScanPasses(cluster, sets, owned, mode)
    requires known in sets.gateway && Extends(known, pod)
    requires policy in cluster.policies && policy.namespace == GATEWAY_NAMESPACE && Selects(policy.spec, pod)
    ensures (policy.namespace, policy.name) in owned
    ensures policy.spec == owned[(policy.namespace, policy.name)].desired.rest
  {
    var id := (policy.namespace, policy.name);
    assert Acceptable(policy, sets, owned, mode);
    if id !in owned {
      NoMatchAny(PodSelector(policy.spec), sets.gateway, known, pod);
    } else {
      OwnedIsDesired(policy, owned[id], mode);
    }
  }

  lemma OwnedIsDesired(policy: Policy, binding: Binding, mode: Mode)
    requires OwnedAsDesired(policy, binding, mode)
    ensures policy.spec == binding.desired.rest
  {
    var pair := ExpectedPair(binding.owner);
    assert pair.Keys !! binding.desired.labels.Keys;
    OnlyTheExactPairIsStripped(Labelled(policy.labels, policy.spec), binding.desired, binding.owner, mode, Absent);
  }

  /** An owned workbench policy, as it was designed, admits the source. */
  ghost predicate OwnedAdmits<S(!new)>(owned: map<Id, Binding>, id: Id, pod: Labels, source: S,
                                       reaches: (Peer, S) -> bool, resolve: string -> int) {
    && id in owned && id.0 == WORKBENCH_NAMESPACE
    && Selects(owned[id].desired.rest, pod) && Admits(owned[id].desired.rest, source, reaches, resolve)
  }

  /** What a single acceptable policy lets through to the workbench port. */
  lemma AdmittedIsReviewed<S(!new)>(policy: Policy, sets: LabelSets, owned: map<Id, Binding>, mode: Mode,
                                    known: Labels, pod: Labels,
                                    source: S, reaches: (Peer, S) -> bool, resolve: string -> int)
    requires Acceptable(policy, sets, owned, mode) && policy.namespace == WORKBENCH_NAMESPACE
    requires known in sets.workbench && Extends(known, pod)
    requires Selects(policy.spec, pod) && Admits(policy.spec, source, reaches, resolve)
    ensures || OwnedAdmits(owned, (policy.namespace, policy.name), pod, source, reaches, resolve)
            || exists peer <- REVIEWED_PEERS :: reaches(peer, source)
  {
    var id := (policy.namespace, policy.name);
    if id in owned {
      OwnedIsDesired(policy, owned[id], mode);
    } else {
      NoMatchAny(PodSelector(policy.spec), sets.workbench, known, pod);
      AdmittingIsOpen(policy.spec, source, reaches, resolve);
      ReviewedAdmitsReviewed(policy.spec, source, reaches, resolve);
    }
  }

  /** Some policy of the cluster selects the Pod and lets the source through. */
  ghost predicate UnionAdmits<S(!new)>(cluster: Cluster, pod: Labels, source: S,
                                       reaches: (Peer, S) -> bool, resolve: string -> int) {
    exists policy <- cluster.policies ::
      policy.namespace == WORKBENCH_NAMESPACE && Selects(policy.spec, pod) && Admits(policy.spec, source, reaches, resolve)
  }

  /** Whoever the union of all selecting policies lets through to the workbench port is
      let through by an owned policy, or is one of the ten reviewed peers. This holds for
      any reading of peers, any resolution of named ports, and any further Pod labels. */
  lemma WorkbenchSourcesAreReviewed<S(!new)>(cluster: Cluster, sets: LabelSets, owned: map<Id, Binding>, mode: Mode,
                                             known: Labels, pod: Labels,
                                             source: S, reaches: (Peer, S) -> bool, resolve: string -> int)
    requires ScanPasses(cluster, sets, owned, mode)
    requires known in sets.workbench && Extends(known, pod)
    requires UnionAdmits(cluster, pod, source, reaches, resolve)
    ensures || (exists id :: OwnedAdmits(owned, id, pod, source, reaches, resolve))
            || exists peer <- REVIEWED_PEERS :: reaches(peer, source)
  {
    var policy :| policy in cluster.policies && policy.namespace == WORKBENCH_NAMESPACE
                  && Selects(policy.spec, pod) && Admits(policy.spec, source, reaches, resolve);
    hide Acceptable, Selects, Admits, OwnedAdmits;
    AdmittedIsReviewed(policy, sets, owned, mode, known, pod, source, reaches, resolve);
  }

  lemma AdmittingIsOpen<S(!new)>(spec: Spec, source: S, reaches: (Peer, S) -> bool, resolve: string -> int)
    requires Admits(spec, source, reaches, resolve)
    ensures PortOpen(spec)
  {
    var rule :| rule in spec.ingress.value && RuleAdmits(rule, source, reaches, resolve);
    OpenMeansSomeResolutionAdmits(spec, rule);
  }

  lemma ReviewedAdmitsReviewed<S(!new)>(spec: Spec, source: S, reaches: (Peer, S) -> bool, resolve: string -> int)
    requires IsReviewedIngress(spec) && Admits(spec, source, reaches, resolve)
    ensures exists peer <- REVIEWED_PEERS :: reaches(peer, source)
  {
    var rule := spec.ingress.value[0];
    assert RuleAdmits(rule, source, reaches, resolve);
    var peer :| peer in rule.from.value && reaches(peer, source);
    assert peer in Elements(rule.from.value);
  }

  /** The reviewed policy lists each reviewed peer once, in any order. */
  lemma ReviewedPeersArePermuted(spec: Spec)
    requires IsReviewedIngress(spec)
    ensures multiset(spec.ingress.value[0].from.value) == multiset(REVIEWED_PEERS)
  {
    forall i, j | 0 <= i < j < |REVIEWED_PEERS|
      ensures REVIEWED_PEERS[i] != REVIEWED_PEERS[j]
    {
      ReviewedPeersDiffer(i, j);
    }
    DistinctElements(REVIEWED_PEERS);
    SameLengthSameSet(spec.ingress.value[0].from.value, Elements(REVIEWED_PEERS));
    SameLengthSameSet(REVIEWED_PEERS, Elements(REVIEWED_PEERS));
  }

  lemma {:induction false} DistinctElements<T>(s: seq<T>)
    requires forall i, j :: 0 <= i < j < |s| ==> s[i] != s[j]
    ensures |Elements(s)| == |s|
  {
    if s != [] {
      DistinctElements(s[1..]);
      assert Elements(s) == Elements(s[1..]) + {s[0]};
    }
  }

  /** The ten peers are all different. */
  lemma ReviewedPeersDiffer(i: nat, j: nat)
    requires i < j < |REVIEWED_PEERS|
    ensures REVIEWED_PEERS[i] != REVIEWED_PEERS[j]
  {
  }

  // ---------------------------------------------------------------- Cilium

  /** Is the policy of this family in scope for Pods of that namespace? */
  predicate InScope(policy: CiliumPolicy, clusterwide: bool, namespace: string) {
    clusterwide || policy.namespace == namespace
  }

  /** Cilium enforces the single spec and the list alike. */
  function Enforced(policy: CiliumPolicy): seq<CiliumSpec> {
    (if policy.spec.Some? then [policy.spec.value] else []) + (if policy.specs.Some? then policy.specs.value else [])
  }

  function CiliumSets(sets: LabelSets, namespace: string): seq<Labels> {
    if namespace == GATEWAY_NAMESPACE then sets.ciliumGateway
    else if namespace == WORKBENCH_NAMESPACE then sets.ciliumWorkbench
    else []
  }

  ghost predicate IsScanned(cluster: Cluster, policy: CiliumPolicy, clusterwide: bool) {
    cluster.cilium.Some? && policy in if clusterwide then cluster.cilium.value.1 else cluster.cilium.value.0
  }

  /** No spec that this policy makes Cilium enforce matches a Pod with these labels,
      now or with more of them. */
  ghost predicate NeverSelects(policy: CiliumPolicy, sets: seq<Labels>) {
    forall spec, known, pod :: spec in Enforced(policy) && known in sets && Extends(known, pod) ==>
                                 !Matches(EndpointSelector(spec), pod).Yes?
  }

  /** The policy has no single spec beside a list, or that spec cannot match: for each of
      these label sets it is told apart by what is known, or its conditions on what is not
      known contradict each other. */
  predicate SingleIsHarmless(policy: CiliumPolicy, sets: seq<Labels>) {
    || policy.specs.None? || policy.spec.None?
    || var s := EndpointSelector(policy.spec.value);
       forall known <- sets :: !(CouldMatch(s, known).Yes? && Satisfiable(s, known))
  }

  lemma AcceptedSelectsOnlyBlindly(policy: CiliumPolicy, clusterwide: bool, sets: LabelSets, some: seq<Labels>)
    requires CiliumAcceptable(policy, clusterwide, sets)
    requires forall known <- some :: known in Candidates(policy, clusterwide, sets)
    ensures NeverSelects(policy, some) <==> SingleIsHarmless(policy, some)
  {
    hide CouldMatch, Satisfiable, Matches;
    var candidates := Candidates(policy, clusterwide, sets);
    if SingleIsHarmless(policy, some) {
      forall spec, known, pod | spec in Enforced(policy) && known in some && Extends(known, pod)
        ensures !Matches(EndpointSelector(spec), pod).Yes?
      {
        SomePodMatches(EndpointSelector(spec), known);
        if Matches(EndpointSelector(spec), pod).Yes? && spec in Inspected(policy) {
          NoMatchAnySpec(Inspected(policy), spec, candidates, known, pod);
        }
      }
    }
    if policy.specs.Some? && policy.spec.Some? && NeverSelects(policy, some) {
      forall known | known in some
        ensures !(CouldMatch(EndpointSelector(policy.spec.value), known).Yes? && Satisfiable(EndpointSelector(policy.spec.value), known))
      {
        assert policy.spec.value in Enforced(policy);
        SomePodMatches(EndpointSelector(policy.spec.value), known);
      }
    }
  }

  /** A Cilium policy in scope selects no participant Pod, whatever further labels the Pod
      has or will get, if and only if the policy does not carry a single spec beside a list
      of specs, or that single spec cannot match such a Pod. */
  lemma NoCiliumPolicySelects(cluster: Cluster, sets: LabelSets, owned: map<Id, Binding>, mode: Mode,
                              policy: CiliumPolicy, clusterwide: bool, namespace: string)
    requires ScanPasses(cluster, sets, owned, mode)
    requires IsScanned(cluster, policy, clusterwide) && InScope(policy, clusterwide, namespace)
    ensures NeverSelects(policy, CiliumSets(sets, namespace)) <==> SingleIsHarmless(policy, CiliumSets(sets, namespace))
  {
    assert CiliumAcceptable(policy, clusterwide, sets);
    assert forall known <- CiliumSets(sets, namespace) :: known in Candidates(policy, clusterwide, sets);
    AcceptedSelectsOnlyBlindly(policy, clusterwide, sets, CiliumSets(sets, namespace));
  }

  /** Acceptance settles the question for every policy of a shape. */
  ghost predicate Decides(hasList: bool, hasSingle: bool, sets: LabelSets) {
    forall policy: CiliumPolicy :: policy.specs.Some? == hasList && policy.spec.Some? == hasSingle
                                   && CiliumAcceptable(policy, true, sets)
                                   ==> NeverSelects(policy, Candidates(policy, true, sets))
  }

  /** A list that selects nothing, and beside it a single spec that selects every Pod. */
  const BLIND_SPOT := CiliumPolicy("", Some([]), Some(CiliumSpec(Some(Selector(map[], [])))))

  /** And by its shape alone: as long as there is a Pod to select, acceptance settles the
      question for a shape of policy if and only if that shape does not have both the list
      and the single spec, for then the single one is never looked at. */
  lemma ScanIsBlindToASpecBesideAList(hasList: bool, hasSingle: bool, sets: LabelSets, known: Labels)
    requires known in sets.ciliumGateway
    ensures CiliumAcceptable(BLIND_SPOT, true, sets) && !NeverSelects(BLIND_SPOT, Candidates(BLIND_SPOT, true, sets))
    ensures Decides(hasList, hasSingle, sets) <==> !(hasList && hasSingle)
  {
    var candidates := Candidates(BLIND_SPOT, true, sets);
    assert CiliumSpec(Some(Selector(map[], []))) in Enforced(BLIND_SPOT) && known in candidates && Extends(known, known);
    forall policy: CiliumPolicy | !(policy.specs.Some? && policy.spec.Some?) && CiliumAcceptable(policy, true, sets)
      ensures NeverSelects(policy, Candidates(policy, true, sets))
    {
      AcceptedSelectsOnlyBlindly(policy, true, sets, Candidates(policy, true, sets));
    }
  }
}
