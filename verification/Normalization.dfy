/** Strict comparison of Kubernetes objects: what the server owns or fills in by itself
    is taken away, and everything else must be equal. */
module Normalization {
  import opened Wrappers

  /** A JSON value up to Python's equality, for which false and true are 0 and 1. */
  datatype Json = Null | Num(n: int) | Text(s: string) | List(items: seq<Json>) | Dict(fields: Fields)

  type Fields = map<string, Json>

  /** `mapping.get(key)` */
  function Get(m: Fields, k: string): Json {
    if k in m then m[k] else Null
  }

  predicate Truthy(v: Json) {
    match v
    case Null => false
    case Num(n) => n != 0
    case Text(s) => s != ""
    case List(items) => items != []
    case Dict(fields) => fields != map[]
  }

  // ------------------------------------------------------- one level of an object

  /** What happens to the fields of one dictionary: some are dropped, some when they
      have their default value, one when it repeats another, and some values are
      themselves normalized. `edit` is the normalization of a value, `fill` its
      counterpart that spells the defaults out. Without a required field, or when a
      value cannot be edited, the whole object is refused. */
  datatype Level = Level(required: set<string>, drop: (string, Json) -> bool, defaults: Fields,
                         alias: Option<(string, string)>,
                         edit: (string, Json) -> Option<Json>, fill: (string, Json) -> Json)

  function Alias(l: Level): set<string> {
    if l.alias.Some? then {l.alias.value.0} else {}
  }

  /** The field says the same as the one it is an alias of. */
  predicate Repeats(l: Level, m: Fields, k: string) {
    k in Alias(l) && Get(m, k) == Get(m, l.alias.value.1)
  }

  predicate IsDefault(l: Level, k: string, v: Json) {
    k in l.defaults && l.edit(k, v) == Some(l.defaults[k])
  }

  predicate Editable(l: Level, m: Fields) {
    l.required <= m.Keys && forall k <- m :: !l.drop(k, m[k]) ==> l.edit(k, m[k]).Some?
  }

  /** What is left of a field once the defaults are taken away. */
  function StripAt(l: Level, m: Fields, k: string): Option<Json> {
    if k !in m || l.drop(k, m[k]) || Repeats(l, m, k) || IsDefault(l, k, m[k]) then None else l.edit(k, m[k])
  }

  function Strip(l: Level, m: Fields): Option<Fields> {
    if Editable(l, m) then Some(map k | k in m && StripAt(l, m, k).Some? :: StripAt(l, m, k).value) else None
  }

  /** What a field is once the defaults are spelled out. */
  function FillAt(l: Level, m: Fields, k: string): Option<Json> {
    if k in Alias(l) then
      var other := l.alias.value.1;
      if k !in m then (if other in m then Some(m[other]) else None)
      else if Repeats(l, m, k) && other !in m then None else Some(m[k])
    else if k !in m then (if k in l.defaults then Some(l.fill(k, l.defaults[k])) else None)
    else if l.drop(k, m[k]) then None
    else Some(l.fill(k, m[k]))
  }

  function Fill(l: Level, m: Fields): Fields {
    map k | k in m.Keys + l.defaults.Keys + Alias(l) && FillAt(l, m, k).Some? :: FillAt(l, m, k).value
  }

  /** Stripping and filling of one value fit: neither undoes nor adds to the other. */
  ghost predicate FitsAt(l: Level, k: string, v: Json) {
    l.edit(k, v).Some? ==>
      && l.edit(k, l.fill(k, v)) == l.edit(k, v)
      && l.fill(k, l.edit(k, v).value) == l.fill(k, v)
      && l.edit(k, l.edit(k, v).value) == l.edit(k, v)
      && (!l.drop(k, v) ==> !l.drop(k, l.fill(k, v)) && !l.drop(k, l.edit(k, v).value))
  }

  /** Nothing but the alias rule touches this key. */
  ghost predicate Plain(l: Level, k: string) {
    k !in l.defaults && forall v :: !l.drop(k, v) && l.edit(k, v) == Some(v) && l.fill(k, v) == v
  }

  /** The parts of a level fit, and do not get in each other's way. */
  ghost predicate WellFormed(l: Level) {
    && (forall k, v :: FitsAt(l, k, v))
    && (forall k, v :: k in l.defaults ==> !l.drop(k, v))
    && (forall k <- l.defaults :: l.edit(k, l.defaults[k]) == Some(l.defaults[k]))
    && (forall k, v :: k in l.required ==> !l.drop(k, v))
    && l.required !! l.defaults.Keys && l.required !! Alias(l)
    && (l.alias.Some? ==>
          l.alias.value.0 != l.alias.value.1 && Plain(l, l.alias.value.0) && Plain(l, l.alias.value.1))
  }

  lemma Same(a: Fields, b: Fields)
    requires forall k :: (k in a <==> k in b) && (k in a && k in b ==> a[k] == b[k])
    ensures a == b
  {
  }

  lemma FilledAt(l: Level, m: Fields, k: string)
    ensures if FillAt(l, m, k).Some? then k in Fill(l, m) && Fill(l, m)[k] == FillAt(l, m, k).value else k !in Fill(l, m)
  {
  }

  lemma StrippedAt(l: Level, m: Fields, k: string)
    requires Editable(l, m)
    ensures if StripAt(l, m, k).Some? then k in Strip(l, m).value && Strip(l, m).value[k] == StripAt(l, m, k).value
            else k !in Strip(l, m).value
  {
  }

  lemma FillThenStripAt(l: Level, m: Fields, k: string)
    requires WellFormed(l) && Editable(l, m)
    ensures StripAt(l, Fill(l, m), k) == StripAt(l, m, k)
    ensures k in Fill(l, m) && !l.drop(k, Fill(l, m)[k]) ==> l.edit(k, Fill(l, m)[k]).Some?
  {
    var filled := Fill(l, m);
    FilledAt(l, m, k);
    if k in Alias(l) {
      FilledAt(l, m, l.alias.value.1);
    } else if k in m {
      assert FitsAt(l, k, m[k]);
    } else if k in l.defaults {
      assert FitsAt(l, k, l.defaults[k]);
    }
  }

  lemma StripThenFillAt(l: Level, m: Fields, k: string)
    requires WellFormed(l) && Editable(l, m)
    ensures FillAt(l, Strip(l, m).value, k) == FillAt(l, m, k)
  {
    var stripped := Strip(l, m).value;
    StrippedAt(l, m, k);
    if k in Alias(l) {
      StrippedAt(l, m, l.alias.value.1);
    } else if k in m {
      assert FitsAt(l, k, m[k]);
    }
  }

  lemma StripTwiceAt(l: Level, m: Fields, k: string)
    requires WellFormed(l) && Editable(l, m)
    ensures StripAt(l, Strip(l, m).value, k) == StripAt(l, m, k)
    ensures k in Strip(l, m).value ==> l.edit(k, Strip(l, m).value[k]).Some?
  {
    StrippedAt(l, m, k);
    if k in Alias(l) {
      StrippedAt(l, m, l.alias.value.1);
    } else if k in m {
      assert FitsAt(l, k, m[k]);
    }
  }

  /** Stripping and filling fit on a whole dictionary as soon as they fit on its parts. */
  lemma LevelFits(l: Level, m: Fields)
    requires WellFormed(l) && Strip(l, m).Some?
    ensures Strip(l, Fill(l, m)) == Strip(l, m)
    ensures Fill(l, Strip(l, m).value) == Fill(l, m)
    ensures Strip(l, Strip(l, m).value) == Strip(l, m)
  {
    var stripped, filled := Strip(l, m).value, Fill(l, m);
    forall k
      ensures StripAt(l, filled, k) == StripAt(l, m, k) == StripAt(l, stripped, k) && FillAt(l, stripped, k) == FillAt(l, m, k)
      ensures k in filled && !l.drop(k, filled[k]) ==> l.edit(k, filled[k]).Some?
      ensures k in stripped ==> l.edit(k, stripped[k]).Some?
      ensures k in l.required ==> k in stripped && k in filled
    {
      FillThenStripAt(l, m, k);
      StripThenFillAt(l, m, k);
      StripTwiceAt(l, m, k);
      StrippedAt(l, m, k);
      FilledAt(l, m, k);
    }
    SameStrip(l, filled, m);
    SameStrip(l, stripped, m);
    SameFill(l, stripped, m);
  }

  /** On any well-formed level, stripping equates exactly what spelling out equates. */
  lemma EqualUpToDefaults(l: Level, a: Fields, b: Fields)
    requires WellFormed(l) && Strip(l, a).Some? && Strip(l, b).Some?
    ensures Strip(l, a) == Strip(l, b) <==> Fill(l, a) == Fill(l, b)
  {
    LevelFits(l, a);
    LevelFits(l, b);
  }

  lemma SameStrip(l: Level, a: Fields, b: Fields)
    requires Editable(l, a) && Editable(l, b) && forall k :: StripAt(l, a, k) == StripAt(l, b, k)
    ensures Strip(l, a) == Strip(l, b)
  {
    forall k
      ensures k in Strip(l, a).value <==> k in Strip(l, b).value
      ensures k in Strip(l, a).value ==> Strip(l, a).value[k] == Strip(l, b).value[k]
    {
      StrippedAt(l, a, k);
      StrippedAt(l, b, k);
    }
    Same(Strip(l, a).value, Strip(l, b).value);
  }

  lemma SameFill(l: Level, a: Fields, b: Fields)
    requires forall k :: FillAt(l, a, k) == FillAt(l, b, k)
    ensures Fill(l, a) == Fill(l, b)
  {
    forall k
      ensures k in Fill(l, a) <==> k in Fill(l, b)
      ensures k in Fill(l, a) ==> Fill(l, a)[k] == Fill(l, b)[k]
    {
      FilledAt(l, a, k);
      FilledAt(l, b, k);
    }
    Same(Fill(l, a), Fill(l, b));
  }

  // ---------------------------------------------------- dictionaries inside values

  function StripDict(l: Level, v: Json): Option<Json> {
    if !v.Dict? then None
    else match Strip(l, v.fields) case Some(m) => Some(Dict(m)) case None => None
  }

  function FillDict(l: Level, v: Json): Json {
    if v.Dict? then Dict(Fill(l, v.fields)) else v
  }

  /** Every item of a list is a dictionary of this level. */
  function StripEach(l: Level, v: Json): Option<Json> {
    if v.List? && forall i :: 0 <= i < |v.items| ==> StripDict(l, v.items[i]).Some?
    then Some(List(seq(|v.items|, i requires 0 <= i < |v.items| && StripDict(l, v.items[i]).Some? => StripDict(l, v.items[i]).value)))
    else None
  }

  function FillEach(l: Level, v: Json): Json {
    if v.List? then List(seq(|v.items|, i requires 0 <= i < |v.items| => FillDict(l, v.items[i]))) else v
  }

  lemma DictFits(l: Level, v: Json)
    requires WellFormed(l) && StripDict(l, v).Some?
    ensures StripDict(l, FillDict(l, v)) == StripDict(l, v)
    ensures FillDict(l, StripDict(l, v).value) == FillDict(l, v)
    ensures StripDict(l, StripDict(l, v).value) == StripDict(l, v)
  {
    LevelFits(l, v.fields);
  }

  lemma EachFits(l: Level, v: Json)
    requires WellFormed(l) && StripEach(l, v).Some?
    ensures StripEach(l, FillEach(l, v)) == StripEach(l, v)
    ensures FillEach(l, StripEach(l, v).value) == FillEach(l, v)
    ensures StripEach(l, StripEach(l, v).value) == StripEach(l, v)
  {
    forall i | 0 <= i < |v.items|
      ensures StripDict(l, FillDict(l, v.items[i])) == StripDict(l, v.items[i])
      ensures FillDict(l, StripDict(l, v.items[i]).value) == FillDict(l, v.items[i])
      ensures StripDict(l, StripDict(l, v.items[i]).value) == StripDict(l, v.items[i])
    {
      DictFits(l, v.items[i]);
    }
    var filled, stripped := FillEach(l, v), StripEach(l, v).value;
    assert StripEach(l, filled).Some? && StripEach(l, stripped).Some?;
    assert StripEach(l, filled).value.items == stripped.items;
    assert StripEach(l, stripped).value.items == stripped.items;
    assert FillEach(l, stripped).items == filled.items;
  }

  // --------------------------------------------------------- the reviewed defaults

  function Keep(k: string, v: Json): Option<Json> { Some(v) }

  function Leave(k: string, v: Json): Json { v }

  predicate Never(k: string, v: Json) { false }

  /** A dictionary of which only some defaults are known. */
  function Simple(defaults: Fields): Level {
    Level({}, Never, defaults, None, Keep, Leave)
  }

  const HTTP_GET: Fields := map["scheme" := Text("HTTP")]
  const PROBE: Fields := map["successThreshold" := Num(1), "initialDelaySeconds" := Num(0)]
  const CONTAINER: Fields := map["terminationMessagePath" := Text("/dev/termination-log"),
                                 "terminationMessagePolicy" := Text("File"), "stdin" := Num(0), "tty" := Num(0),
                                 "env" := List([]), "resources" := Dict(map[])]
  const PROBES: set<string> := {"startupProbe", "livenessProbe", "readinessProbe"}
  const POD: Fields := map["dnsPolicy" := Text("ClusterFirst"), "restartPolicy" := Text("Always"),
                           "schedulerName" := Text("default-scheduler"), "terminationGracePeriodSeconds" := Num(30),
                           "imagePullSecrets" := List([])]
  const DEPLOYMENT: Fields := map["progressDeadlineSeconds" := Num(600), "revisionHistoryLimit" := Num(10), "paused" := Num(0),
                                  "strategy" := Dict(map["type" := Text("RollingUpdate"),
                                                         "rollingUpdate" := Dict(map["maxSurge" := Text("25%"),
                                                                                     "maxUnavailable" := Text("25%")])])]
  const SERVICE: Fields := map["type" := Text("ClusterIP"), "sessionAffinity" := Text("None"),
                               "internalTrafficPolicy" := Text("Cluster"), "ipFamilyPolicy" := Text("SingleStack"),
                               "ipFamilies" := List([Text("IPv4")])]
  const SERVICE_ACCOUNT: Fields := map["secrets" := List([]), "imagePullSecrets" := List([])]
  const SERVER_OWNED: set<string> := {"uid", "resourceVersion", "generation", "creationTimestamp", "managedFields"}
  const REVISION := "deployment.kubernetes.io/revision"
  const LAST_APPLIED := "kubectl.kubernetes.io/last-applied-configuration"

  function EditProbe(k: string, v: Json): Option<Json> {
    if k == "httpGet" then StripDict(Simple(HTTP_GET), v) else Some(v)
  }

  function FillProbe(k: string, v: Json): Json {
    if k == "httpGet" then FillDict(Simple(HTTP_GET), v) else v
  }

  function Probe(): Level {
    Level({}, Never, PROBE, None, EditProbe, FillProbe)
  }

  function EditContainer(k: string, v: Json): Option<Json> {
    if k in PROBES then StripDict(Probe(), v) else Some(v)
  }

  function FillContainer(k: string, v: Json): Json {
    if k in PROBES then FillDict(Probe(), v) else v
  }

  function Container(): Level {
    Level({}, Never, CONTAINER, None, EditContainer, FillContainer)
  }

  function VolumeSource(k: string): Option<Level> {
    if k == "configMap" || k == "secret" then Some(Simple(map["defaultMode" := Num(420)]))
    else if k == "persistentVolumeClaim" then Some(Simple(map["readOnly" := Num(0)]))
    else None
  }

  function EditVolume(k: string, v: Json): Option<Json> {
    if VolumeSource(k).Some? then StripDict(VolumeSource(k).value, v) else Some(v)
  }

  function FillVolume(k: string, v: Json): Json {
    if VolumeSource(k).Some? then FillDict(VolumeSource(k).value, v) else v
  }

  function Volume(): Level {
    Level({}, Never, map[], None, EditVolume, FillVolume)
  }

  function EditPod(k: string, v: Json): Option<Json> {
    if k == "volumes" then StripEach(Volume(), v)
    else if k == "containers" || k == "initContainers" then StripEach(Container(), v)
    else Some(v)
  }

  function FillPod(k: string, v: Json): Json {
    if k == "volumes" then FillEach(Volume(), v)
    else if k == "containers" || k == "initContainers" then FillEach(Container(), v)
    else v
  }

  function Pod(): Level {
    Level({}, Never, POD, Some(("serviceAccount", "serviceAccountName")), EditPod, FillPod)
  }

  predicate IsCreationTimestamp(k: string, v: Json) { k == "creationTimestamp" }

  function TemplateMeta(): Level {
    Level({}, IsCreationTimestamp, map[], None, Keep, Leave)
  }

  function EditTemplate(k: string, v: Json): Option<Json> {
    if k == "metadata" then StripDict(TemplateMeta(), v) else if k == "spec" then StripDict(Pod(), v) else Some(v)
  }

  function FillTemplate(k: string, v: Json): Json {
    if k == "metadata" then FillDict(TemplateMeta(), v) else if k == "spec" then FillDict(Pod(), v) else v
  }

  function Template(): Level {
    Level({"metadata", "spec"}, Never, map[], None, EditTemplate, FillTemplate)
  }

  function EditDeployment(k: string, v: Json): Option<Json> {
    if k == "template" then StripDict(Template(), v) else Some(v)
  }

  function FillDeployment(k: string, v: Json): Json {
    if k == "template" then FillDict(Template(), v) else v
  }

  function Deployment(): Level {
    Level({"template"}, Never, DEPLOYMENT, None, EditDeployment, FillDeployment)
  }

  lemma SimpleWellFormed(defaults: Fields)
    ensures WellFormed(Simple(defaults))
  {
  }

  lemma ProbeWellFormed()
    ensures WellFormed(Probe())
  {
    SimpleWellFormed(HTTP_GET);
    forall k, v
      ensures FitsAt(Probe(), k, v)
    {
      if k == "httpGet" && StripDict(Simple(HTTP_GET), v).Some? {
        DictFits(Simple(HTTP_GET), v);
      }
    }
  }

  lemma ContainerFitsAt(k: string, v: Json)
    ensures FitsAt(Container(), k, v)
  {
    hide WellFormed, StripDict, FillDict, Probe;
    ProbeWellFormed();
    if k in PROBES && StripDict(Probe(), v).Some? {
      DictFits(Probe(), v);
    }
  }

  lemma ContainerWellFormed()
    ensures WellFormed(Container())
  {
    forall k, v
      ensures FitsAt(Container(), k, v)
    {
      ContainerFitsAt(k, v);
    }
  }

  lemma VolumeWellFormed()
    ensures WellFormed(Volume())
  {
    forall k, v
      ensures FitsAt(Volume(), k, v)
    {
      if VolumeSource(k).Some? && StripDict(VolumeSource(k).value, v).Some? {
        SimpleWellFormed(VolumeSource(k).value.defaults);
        DictFits(VolumeSource(k).value, v);
      }
    }
  }

  lemma PodFitsAt(k: string, v: Json)
    ensures FitsAt(Pod(), k, v)
  {
    hide WellFormed, StripEach, FillEach, Volume, Container;
    ContainerWellFormed();
    VolumeWellFormed();
    if k == "volumes" && StripEach(Volume(), v).Some? {
      EachFits(Volume(), v);
    } else if (k == "containers" || k == "initContainers") && StripEach(Container(), v).Some? {
      EachFits(Container(), v);
    }
  }

  lemma PodWellFormed()
    ensures WellFormed(Pod())
  {
    forall k, v
      ensures FitsAt(Pod(), k, v)
    {
      PodFitsAt(k, v);
    }
  }

  lemma TemplateWellFormed()
    ensures WellFormed(Template())
  {
    PodWellFormed();
    assert WellFormed(TemplateMeta());
    forall k, v
      ensures FitsAt(Template(), k, v)
    {
      if k == "metadata" && StripDict(TemplateMeta(), v).Some? {
        DictFits(TemplateMeta(), v);
      } else if k == "spec" && StripDict(Pod(), v).Some? {
        DictFits(Pod(), v);
      }
    }
  }

  lemma NotADeploymentDefault()
    ensures "template" !in DEPLOYMENT
  {
    assert "template"[0] != "strategy"[0];
    assert |"template"| != |"paused"| && |"template"| != |"revisionHistoryLimit"| && |"template"| != |"progressDeadlineSeconds"|;
  }

  lemma DeploymentWellFormed()
    ensures WellFormed(Deployment())
  {
    TemplateWellFormed();
    NotADeploymentDefault();
    forall k, v
      ensures FitsAt(Deployment(), k, v)
    {
      if k == "template" && StripDict(Template(), v).Some? {
        DictFits(Template(), v);
      }
    }
  }

  // ------------------------------------------------------------------- Services

  predicate IsClusterIP(k: string, v: Json) { k == "clusterIP" || k == "clusterIPs" }

  function ServiceSpec(): Level {
    Level({}, IsClusterIP, SERVICE, None, Keep, Leave)
  }

  /** Only a plain internal Service is compared at all. `ipv4` says which values read as
      an address of that family. */
  predicate IsInternal(m: Fields, ipv4: Json -> bool) {
    && ("type" in m ==> m["type"] == Text("ClusterIP"))
    && !Truthy(Get(m, "externalIPs")) && !Truthy(Get(m, "externalName"))
    && ("clusterIP" in m ==> ipv4(m["clusterIP"]) && ("clusterIPs" in m ==> m["clusterIPs"] == List([m["clusterIP"]])))
  }

  function StripService(ipv4: Json -> bool, v: Json): Option<Json> {
    if v.Dict? && IsInternal(v.fields, ipv4) then StripDict(ServiceSpec(), v) else None
  }

  lemma InternalStays(ipv4: Json -> bool, m: Fields)
    requires IsInternal(m, ipv4)
    ensures IsInternal(Strip(ServiceSpec(), m).value, ipv4) && IsInternal(Fill(ServiceSpec(), m), ipv4)
  {
    var l := ServiceSpec();
    ExternalsAreNoDefaults();
    forall k <- {"type", "externalIPs", "externalName", "clusterIP"}
      ensures Get(Strip(l, m).value, k) == if StripAt(l, m, k).Some? then StripAt(l, m, k).value else Null
      ensures Get(Fill(l, m), k) == if FillAt(l, m, k).Some? then FillAt(l, m, k).value else Null
      ensures (k in Strip(l, m).value <==> StripAt(l, m, k).Some?) && (k in Fill(l, m) <==> FillAt(l, m, k).Some?)
    {
      StrippedAt(l, m, k);
      FilledAt(l, m, k);
    }
    hide Strip, Fill;
  }

  lemma ExternalsAreNoDefaults()
    ensures "externalIPs" !in SERVICE && "externalName" !in SERVICE
  {
    assert |"externalIPs"| != |"type"| && |"externalName"| != |"type"|;
    assert "externalIPs"[0] != "sessionAffinity"[0] && "externalIPs"[0] != "internalTrafficPolicy"[0]
           && "externalIPs"[0] != "ipFamilies"[0];
  }

  lemma ServiceFits(ipv4: Json -> bool, v: Json)
    requires StripService(ipv4, v).Some?
    ensures StripService(ipv4, FillDict(ServiceSpec(), v)) == StripService(ipv4, v)
    ensures FillDict(ServiceSpec(), StripService(ipv4, v).value) == FillDict(ServiceSpec(), v)
    ensures StripService(ipv4, StripService(ipv4, v).value) == StripService(ipv4, v)
  {
    assert WellFormed(ServiceSpec());
    DictFits(ServiceSpec(), v);
    InternalStays(ipv4, v.fields);
  }

  // ------------------------------------------------------------ NetworkPolicies

  /** A direction that the policy speaks about without rules has the empty list of rules. */
  function WithRules(m: Fields, direction: string, rules: string): Fields {
    if "policyTypes" in m && m["policyTypes"].List? && Text(direction) in m["policyTypes"].items && rules !in m
    then m[rules := List([])] else m
  }

  function StripPolicy(v: Json): Option<Json> {
    if v.Dict? && ("policyTypes" in v.fields ==> v.fields["policyTypes"].List?) then Some(FillPolicy(v)) else None
  }

  function FillPolicy(v: Json): Json {
    if v.Dict? then Dict(WithRules(WithRules(v.fields, "Ingress", "ingress"), "Egress", "egress")) else v
  }

  lemma PolicyFits(v: Json)
    requires StripPolicy(v).Some?
    ensures StripPolicy(FillPolicy(v)) == StripPolicy(v) && FillPolicy(FillPolicy(v)) == FillPolicy(v)
  {
    assert |"policyTypes"| != |"ingress"| && |"policyTypes"| != |"egress"| && |"ingress"| != |"egress"|;
  }

  // ------------------------------------------------------------ the whole object

  predicate IsNumeral(s: string) {
    s != "" && forall c <- s :: '0' <= c <= '9'
  }

  /** A Deployment's numeric revision, and the copy that a client leaves behind. */
  predicate IsServerAnnotation(kind: Json, k: string, v: Json) {
    (k == REVISION && kind == Text("Deployment") && v.Text? && IsNumeral(v.s)) || k == LAST_APPLIED
  }

  function Annotations(kind: Json): Level {
    Level({}, (k, v) => IsServerAnnotation(kind, k, v), map[], None, Keep, Leave)
  }

  predicate IsServerOwned(k: string, v: Json) { k in SERVER_OWNED }

  function EditMeta(kind: Json, k: string, v: Json): Option<Json> {
    if k == "deletionTimestamp" then (if Truthy(v) then None else Some(v))
    else if k == "annotations" then StripDict(Annotations(kind), v)
    else Some(v)
  }

  function FillMeta(kind: Json, k: string, v: Json): Json {
    if k == "annotations" then FillDict(Annotations(kind), v) else v
  }

  function Meta(kind: Json): Level {
    Level({}, IsServerOwned,
          if kind == Text("Kustomization")
          then map["annotations" := Dict(map[]), "finalizers" := List([Text("finalizers.fluxcd.io")])]
          else map["annotations" := Dict(map[])],
          None, (k, v) => EditMeta(kind, k, v), (k, v) => FillMeta(kind, k, v))
  }

  function EditSpec(kind: Json, ipv4: Json -> bool, v: Json): Option<Json> {
    if kind == Text("Service") then StripService(ipv4, v)
    else if kind == Text("NetworkPolicy") then StripPolicy(v)
    else if kind == Text("Deployment") then StripDict(Deployment(), v)
    else Some(v)
  }

  function FillSpec(kind: Json, v: Json): Json {
    if kind == Text("Service") then FillDict(ServiceSpec(), v)
    else if kind == Text("NetworkPolicy") then FillPolicy(v)
    else if kind == Text("Deployment") then FillDict(Deployment(), v)
    else v
  }

  predicate IsStatus(k: string, v: Json) { k == "status" }

  function EditObject(kind: Json, ipv4: Json -> bool, k: string, v: Json): Option<Json> {
    if k == "metadata" then StripDict(Meta(kind), v)
    else if k == "spec" then EditSpec(kind, ipv4, v)
    else Some(v)
  }

  function FillObject(kind: Json, k: string, v: Json): Json {
    if k == "metadata" then FillDict(Meta(kind), v) else if k == "spec" then FillSpec(kind, v) else v
  }

  function Object(kind: Json, ipv4: Json -> bool): Level {
    Level(if kind == Text("Deployment") then {"metadata", "kind", "spec"} else {"metadata", "kind"}, IsStatus,
          if kind == Text("ServiceAccount") then SERVICE_ACCOUNT else map[],
          None, (k, v) => EditObject(kind, ipv4, k, v), (k, v) => FillObject(kind, k, v))
  }

  /** `normalize`; `None` is an exception. */
  function Normalize(obj: Json, ipv4: Json -> bool): Option<Json> {
    if obj.Dict? && "kind" in obj.fields then StripDict(Object(obj.fields["kind"], ipv4), obj) else None
  }

  /** The same object with all reviewed defaults spelled out and nothing server-owned. */
  function SpelledOut(obj: Json, ipv4: Json -> bool): Json {
    if obj.Dict? && "kind" in obj.fields then FillDict(Object(obj.fields["kind"], ipv4), obj) else obj
  }

  lemma NotServerOwned()
    ensures "annotations" !in SERVER_OWNED && "finalizers" !in SERVER_OWNED
  {
    assert "annotations"[0] != "uid"[0] && "annotations"[0] != "resourceVersion"[0] && "annotations"[0] != "generation"[0];
    assert "annotations"[0] != "creationTimestamp"[0] && "annotations"[0] != "managedFields"[0];
    assert "finalizers"[0] != "uid"[0] && "finalizers"[0] != "resourceVersion"[0] && "finalizers"[0] != "generation"[0];
    assert "finalizers"[0] != "creationTimestamp"[0] && "finalizers"[0] != "managedFields"[0];
  }

  lemma AnnotationsWellFormed(kind: Json)
    ensures WellFormed(Annotations(kind))
  {
  }

  lemma MetaFitsAt(kind: Json, k: string, v: Json)
    ensures FitsAt(Meta(kind), k, v)
  {
    AnnotationsWellFormed(kind);
    hide WellFormed, StripDict, FillDict, Annotations;
    assert |"annotations"| != |"deletionTimestamp"|;
    if k == "annotations" && StripDict(Annotations(kind), v).Some? {
      DictFits(Annotations(kind), v);
    }
    NotServerOwned();
  }

  lemma MetaWellFormed(kind: Json)
    ensures WellFormed(Meta(kind))
  {
    assert |"annotations"| != |"finalizers"| && |"annotations"| != |"deletionTimestamp"|
           && |"finalizers"| != |"deletionTimestamp"|;
    assert Strip(Annotations(kind), map[]) == Some(map[]);
    assert StripDict(Annotations(kind), Dict(map[])) == Some(Dict(map[]));
    NotServerOwned();
    hide StripDict, FillDict, Annotations, Strip;
    forall k, v
      ensures FitsAt(Meta(kind), k, v)
    {
      MetaFitsAt(kind, k, v);
    }
  }

  lemma SpecFits(kind: Json, ipv4: Json -> bool, v: Json)
    requires EditSpec(kind, ipv4, v).Some?
    ensures EditSpec(kind, ipv4, FillSpec(kind, v)) == EditSpec(kind, ipv4, v)
    ensures FillSpec(kind, EditSpec(kind, ipv4, v).value) == FillSpec(kind, v)
    ensures EditSpec(kind, ipv4, EditSpec(kind, ipv4, v).value) == EditSpec(kind, ipv4, v)
  {
    if kind == Text("Service") {
      ServiceFits(ipv4, v);
    } else if kind == Text("NetworkPolicy") {
      PolicyFits(v);
    } else if kind == Text("Deployment") {
      DeploymentWellFormed();
      DictFits(Deployment(), v);
    }
  }

  lemma ObjectFitsAt(kind: Json, ipv4: Json -> bool, k: string, v: Json)
    ensures FitsAt(Object(kind, ipv4), k, v)
  {
    hide WellFormed, StripDict, FillDict, EditSpec, FillSpec, Meta;
    MetaWellFormed(kind);
    assert !IsStatus("metadata", v) && !IsStatus("spec", v) by {
      assert |"status"| != |"metadata"| && |"status"| != |"spec"|;
    }
    if k == "metadata" && StripDict(Meta(kind), v).Some? {
      DictFits(Meta(kind), v);
    } else if k == "spec" && EditSpec(kind, ipv4, v).Some? {
      SpecFits(kind, ipv4, v);
    }
  }

  lemma ObjectWellFormed(kind: Json, ipv4: Json -> bool)
    ensures WellFormed(Object(kind, ipv4))
  {
    forall k, v
      ensures FitsAt(Object(kind, ipv4), k, v)
    {
      ObjectFitsAt(kind, ipv4, k, v);
    }
    assert |"status"| != |"metadata"| && |"status"| != |"kind"| && |"status"| != |"spec"|;
    assert |"secrets"| != |"status"| && |"imagePullSecrets"| != |"status"|;
    assert |"secrets"| != |"metadata"| && |"secrets"| != |"kind"| && |"secrets"| != |"spec"|;
    hide FitsAt, StripDict, FillDict, EditSpec, FillSpec, Meta;
  }

  /** Stripping leaves the kind alone, and so does spelling out. */
  lemma KindStays(obj: Json, ipv4: Json -> bool)
    requires Normalize(obj, ipv4).Some?
    ensures var kind := obj.fields["kind"];
            && "kind" in Normalize(obj, ipv4).value.fields && Normalize(obj, ipv4).value.fields["kind"] == kind
            && "kind" in SpelledOut(obj, ipv4).fields && SpelledOut(obj, ipv4).fields["kind"] == kind
  {
    var l := Object(obj.fields["kind"], ipv4);
    ObjectWellFormed(obj.fields["kind"], ipv4);
    assert "kind" in l.required;
    assert !l.drop("kind", obj.fields["kind"]);
    StrippedAt(l, obj.fields, "kind");
    FilledAt(l, obj.fields, "kind");
  }

  lemma NormalizeFits(obj: Json, ipv4: Json -> bool)
    requires Normalize(obj, ipv4).Some?
    ensures Normalize(SpelledOut(obj, ipv4), ipv4) == Normalize(obj, ipv4)
    ensures SpelledOut(Normalize(obj, ipv4).value, ipv4) == SpelledOut(obj, ipv4)
    ensures Normalize(Normalize(obj, ipv4).value, ipv4) == Normalize(obj, ipv4)
  {
    ObjectWellFormed(obj.fields["kind"], ipv4);
    KindStays(obj, ipv4);
    DictFits(Object(obj.fields["kind"], ipv4), obj);
  }

  /** What is normal stays as it is. */
  lemma NormalizeIsIdempotent(obj: Json, ipv4: Json -> bool)
    requires Normalize(obj, ipv4).Some?
    ensures Normalize(Normalize(obj, ipv4).value, ipv4) == Normalize(obj, ipv4)
  {
    NormalizeFits(obj, ipv4);
  }

  /** Strict comparison hides nothing but the reviewed defaults. Two accepted objects
      normalize equally if and only if they are the same once everything server-owned
      is dropped and every reviewed default is spelled out, in the object and in its
      templates, containers, probes and volumes. */
  lemma EqualExactlyUpToDefaults(a: Json, b: Json, ipv4: Json -> bool)
    requires Normalize(a, ipv4).Some? && Normalize(b, ipv4).Some?
    ensures Normalize(a, ipv4) == Normalize(b, ipv4) <==> SpelledOut(a, ipv4) == SpelledOut(b, ipv4)
  {
    NormalizeFits(a, ipv4);
    NormalizeFits(b, ipv4);
  }

  // ----------------------------------------------- the code, one step at a time

  /** The fields without those that have one of the listed values. */
  function Without(m: Fields, defaults: seq<(string, Json)>): Fields {
    map k | k in m && (k, m[k]) !in defaults :: m[k]
  }

  /** `_default`, for a list of names and values. */
  method PopDefaults(m: Fields, defaults: seq<(string, Json)>) returns (r: Fields)
    ensures r == Without(m, defaults)
  {
    r := m;
    for i := 0 to |defaults|
      invariant r == Without(m, defaults[..i])
    {
      assert defaults[..i + 1] == defaults[..i] + [defaults[i]];
      if Get(r, defaults[i].0) == defaults[i].1 {
        r := r - {defaults[i].0};
      }
    }
    assert defaults[..|defaults|] == defaults;
  }

  /** The list says the same as the dictionary of defaults. */
  predicate Spells(defaults: seq<(string, Json)>, fields: Fields) {
    && (forall d <- defaults :: d.0 in fields && fields[d.0] == d.1)
    && (forall k <- fields :: (k, fields[k]) in defaults)
  }

  /** What was computed field by field is what the level prescribes. */
  lemma AsPrescribed(l: Level, m: Fields, r: Fields)
    requires Editable(l, m)
    requires forall k :: if StripAt(l, m, k).Some? then k in r && r[k] == StripAt(l, m, k).value else k !in r
    ensures Strip(l, m) == Some(r)
  {
    forall k
      ensures k in Strip(l, m).value <==> k in r
      ensures k in r ==> r[k] == Strip(l, m).value[k]
    {
      StrippedAt(l, m, k);
    }
    Same(Strip(l, m).value, r);
  }

  method NormalizeSimple(m: Fields, defaults: seq<(string, Json)>, ghost fields: Fields) returns (r: Fields)
    requires Spells(defaults, fields)
    ensures Strip(Simple(fields), m) == Some(r)
  {
    r := PopDefaults(m, defaults);
    AsPrescribed(Simple(fields), m, r);
  }

  method NormalizeProbe(m: Fields) returns (r: Option<Fields>)
    ensures r == Strip(Probe(), m)
  {
    var probe := PopDefaults(m, [("successThreshold", Num(1)), ("initialDelaySeconds", Num(0))]);
    if "httpGet" in probe {
      if !probe["httpGet"].Dict? {
        assert !Editable(Probe(), m);
        return None;
      }
      var get := NormalizeSimple(probe["httpGet"].fields, [("scheme", Text("HTTP"))], HTTP_GET);
      probe := probe["httpGet" := Dict(get)];
    }
    AsPrescribed(Probe(), m, probe);
    r := Some(probe);
  }

  /** The values under the names in `done` are edited, the others as they were. */
  ghost predicate Edited(l: Level, m: Fields, r: Fields, done: set<string>) {
    && r.Keys == m.Keys
    && forall k <- m :: if k in done then l.edit(k, m[k]) == Some(r[k]) else r[k] == m[k]
  }

  /** A level without drops and aliases is done once its defaults are popped and all
      values that need it are edited. */
  lemma Finished(l: Level, m: Fields, defaults: seq<(string, Json)>, r: Fields, done: set<string>)
    requires l.alias.None? && l.required <= m.Keys && forall k, v :: !l.drop(k, v)
    requires Spells(defaults, l.defaults) && Edited(l, Without(m, defaults), r, done)
    requires forall k, v :: k !in done ==> l.edit(k, v) == Some(v)
    requires done !! l.defaults.Keys
    ensures Strip(l, m) == Some(r)
  {
    forall k
      ensures k in m ==> l.edit(k, m[k]).Some?
      ensures if StripAt(l, m, k).Some? then k in r && r[k] == StripAt(l, m, k).value else k !in r
    {
      assert k in l.defaults && k in m ==> (IsDefault(l, k, m[k]) <==> (k, m[k]) in defaults);
    }
    AsPrescribed(l, m, r);
  }

  /** One value was edited in place, if it is there; `None` if that was refused. */
  ghost predicate EditedAt(l: Level, before: Fields, after: Option<Fields>, k: string) {
    if k !in before then after == Some(before)
    else if l.edit(k, before[k]).None? then after.None?
    else after == Some(before[k := l.edit(k, before[k]).value])
  }

  lemma OneMore(l: Level, m: Fields, before: Fields, after: Fields, done: set<string>, k: string)
    requires Edited(l, m, before, done) && k !in done && EditedAt(l, before, Some(after), k)
    ensures Edited(l, m, after, done + {k})
  {
  }

  lemma Refused(l: Level, m: Fields, defaults: seq<(string, Json)>, before: Fields, done: set<string>, k: string)
    requires Edited(l, Without(m, defaults), before, done) && k !in done && EditedAt(l, before, None, k)
    requires forall v :: !l.drop(k, v)
    ensures Strip(l, m).None?
  {
  }

  const CONTAINER_LIST: seq<(string, Json)> := [
    ("terminationMessagePath", Text("/dev/termination-log")), ("terminationMessagePolicy", Text("File")),
    ("stdin", Num(0)), ("tty", Num(0)), ("env", List([])), ("resources", Dict(map[]))]

  const PROBE_NAMES: seq<string> := ["startupProbe", "livenessProbe", "readinessProbe"]

  lemma ProbeNames()
    ensures PROBES !! CONTAINER.Keys
    ensures forall k :: k in PROBES <==> k in PROBE_NAMES
    ensures forall i, j :: 0 <= i < j < 3 ==> PROBE_NAMES[i] != PROBE_NAMES[j]
  {
    assert |"startupProbe"| == 12 && |"livenessProbe"| == 13 && |"readinessProbe"| == 14;
    assert |"terminationMessagePath"| == 22 && |"terminationMessagePolicy"| == 24 && |"stdin"| == 5 && |"tty"| == 3
           && |"env"| == 3 && |"resources"| == 9;
  }

  lemma ContainerList()
    ensures Spells(CONTAINER_LIST, CONTAINER)
  {
    assert forall i :: 0 <= i < 6 ==> CONTAINER_LIST[i].0 in CONTAINER;
    assert |"terminationMessagePath"| == 22 && |"terminationMessagePolicy"| == 24 && |"stdin"| == 5 && |"tty"| == 3
           && |"env"| == 3 && |"resources"| == 9 && "tty"[0] != "env"[0];
  }

  method NormalizeProbeAt(container: Fields, k: string) returns (r: Option<Fields>)
    requires k in PROBES
    ensures EditedAt(Container(), container, r, k)
  {
    if k !in container {
      return Some(container);
    } else if !container[k].Dict? {
      return None;
    }
    var probe := NormalizeProbe(container[k].fields);
    r := if probe.Some? then Some(container[k := Dict(probe.value)]) else None;
  }

  method NormalizeContainer(m: Fields) returns (r: Option<Fields>)
    ensures r == Strip(Container(), m)
  {
    ContainerList();
    ProbeNames();
    hide Strip, Probe, Spells, Edited, EditedAt, Without;
    var container := PopDefaults(m, CONTAINER_LIST);
    NothingEdited(Container(), container);
    NextName(PROBE_NAMES, 0);
    for i := 0 to 3
      invariant Edited(Container(), Without(m, CONTAINER_LIST), container, Names(PROBE_NAMES, i))
    {
      var k := PROBE_NAMES[i];
      NextName(PROBE_NAMES, i);
      var next := NormalizeProbeAt(container, k);
      if next.None? {
        Refused(Container(), m, CONTAINER_LIST, container, Names(PROBE_NAMES, i), k);
        return None;
      }
      OneMore(Container(), Without(m, CONTAINER_LIST), container, next.value, Names(PROBE_NAMES, i), k);
      container := next.value;
    }
    Finished(Container(), m, CONTAINER_LIST, container, Names(PROBE_NAMES, 3));
    r := Some(container);
  }

  lemma NothingEdited(l: Level, m: Fields)
    ensures Edited(l, m, m, {})
  {
  }

  function Names(names: seq<string>, n: nat): set<string>
    requires n <= |names|
  {
    set i | 0 <= i < n :: names[i]
  }

  lemma NextName(names: seq<string>, n: nat)
    requires n < |names| && forall i, j :: 0 <= i < j < |names| ==> names[i] != names[j]
    ensures Names(names, 0) == {}
    ensures names[n] !in Names(names, n) && Names(names, n + 1) == Names(names, n) + {names[n]}
  {
  }

  method NormalizeEachContainer(v: Json) returns (r: Option<Json>)
    ensures r == StripEach(Container(), v)
  {
    hide Container, Strip;
    if !v.List? {
      return None;
    }
    var items: seq<Json> := [];
    for i := 0 to |v.items|
      invariant |items| == i
      invariant forall j :: 0 <= j < i ==> StripDict(Container(), v.items[j]) == Some(items[j])
    {
      if !v.items[i].Dict? {
        return None;
      }
      var item := NormalizeContainer(v.items[i].fields);
      if item.None? {
        return None;
      }
      items := items + [Dict(item.value)];
    }
    assert items == StripEach(Container(), v).value.items;
    r := Some(List(items));
  }

  method NormalizeSourceAt(volume: Fields, k: string) returns (r: Option<Fields>)
    requires VolumeSource(k).Some?
    ensures EditedAt(Volume(), volume, r, k)
  {
    if k !in volume {
      return Some(volume);
    } else if !volume[k].Dict? {
      return None;
    }
    var source;
    if k == "persistentVolumeClaim" {
      source := NormalizeSimple(volume[k].fields, [("readOnly", Num(0))], map["readOnly" := Num(0)]);
    } else {
      source := NormalizeSimple(volume[k].fields, [("defaultMode", Num(420))], map["defaultMode" := Num(420)]);
    }
    r := Some(volume[k := Dict(source)]);
  }

  const SOURCE_NAMES: seq<string> := ["configMap", "secret", "persistentVolumeClaim"]

  lemma SourceNames()
    ensures forall i, j :: 0 <= i < j < 3 ==> SOURCE_NAMES[i] != SOURCE_NAMES[j]
    ensures forall k :: VolumeSource(k).Some? <==> k in Names(SOURCE_NAMES, 3)
  {
    assert |"configMap"| == 9 && |"secret"| == 6 && |"persistentVolumeClaim"| == 21;
    assert Names(SOURCE_NAMES, 3) == {SOURCE_NAMES[0], SOURCE_NAMES[1], SOURCE_NAMES[2]};
  }

  method NormalizeVolume(m: Fields) returns (r: Option<Fields>)
    ensures r == Strip(Volume(), m)
  {
    SourceNames();
    assert Without(m, []) == m;
    hide Strip, Edited, EditedAt, Without, VolumeSource;
    var volume := m;
    NothingEdited(Volume(), volume);
    NextName(SOURCE_NAMES, 0);
    for i := 0 to 3
      invariant Edited(Volume(), Without(m, []), volume, Names(SOURCE_NAMES, i))
    {
      var k := SOURCE_NAMES[i];
      NextName(SOURCE_NAMES, i);
      var next := NormalizeSourceAt(volume, k);
      if next.None? {
        Refused(Volume(), m, [], volume, Names(SOURCE_NAMES, i), k);
        return None;
      }
      OneMore(Volume(), Without(m, []), volume, next.value, Names(SOURCE_NAMES, i), k);
      volume := next.value;
    }
    Finished(Volume(), m, [], volume, Names(SOURCE_NAMES, 3));
    r := Some(volume);
  }

  method NormalizeEachVolume(v: Json) returns (r: Option<Json>)
    ensures r == StripEach(Volume(), v)
  {
    hide Volume, Strip;
    if !v.List? {
      return None;
    }
    var items: seq<Json> := [];
    for i := 0 to |v.items|
      invariant |items| == i
      invariant forall j :: 0 <= j < i ==> StripDict(Volume(), v.items[j]) == Some(items[j])
    {
      if !v.items[i].Dict? {
        return None;
      }
      var item := NormalizeVolume(v.items[i].fields);
      if item.None? {
        return None;
      }
      items := items + [Dict(item.value)];
    }
    assert items == StripEach(Volume(), v).value.items;
    r := Some(List(items));
  }

  const POD_LIST: seq<(string, Json)> := [
    ("dnsPolicy", Text("ClusterFirst")), ("restartPolicy", Text("Always")), ("schedulerName", Text("default-scheduler")),
    ("terminationGracePeriodSeconds", Num(30)), ("imagePullSecrets", List([]))]

  const POD_PARTS: set<string> := {"volumes", "containers", "initContainers"}

  lemma PodLists()
    ensures Spells(POD_LIST, POD) && POD_PARTS !! POD.Keys
    ensures "serviceAccount" !in POD && "serviceAccount" !in POD_PARTS && "serviceAccount" != "serviceAccountName"
  {
    assert |"volumes"| == 7 && |"containers"| == 10 && |"initContainers"| == 14 && |"serviceAccount"| == 14;
    assert |"dnsPolicy"| == 9 && |"restartPolicy"| == 13 && |"schedulerName"| == 13
           && |"terminationGracePeriodSeconds"| == 29 && |"imagePullSecrets"| == 16 && |"serviceAccountName"| == 18;
    assert "initContainers"[0] != "serviceAccount"[0];
  }

  /** The deprecated alias goes if it says the same as the name it stands for. */
  function WithoutAlias(m: Fields): Fields {
    if Get(m, "serviceAccount") == Get(m, "serviceAccountName") then m - {"serviceAccount"} else m
  }

  lemma PodFinished(m: Fields, r: Fields)
    requires Edited(Pod(), Without(WithoutAlias(m), POD_LIST), r, POD_PARTS)
    ensures Strip(Pod(), m) == Some(r)
  {
    PodLists();
    forall k
      ensures k in m ==> EditPod(k, m[k]).Some?
      ensures if StripAt(Pod(), m, k).Some? then k in r && r[k] == StripAt(Pod(), m, k).value else k !in r
    {
      assert k in POD && k in m ==> (IsDefault(Pod(), k, m[k]) <==> (k, m[k]) in POD_LIST);
    }
    AsPrescribed(Pod(), m, r);
  }

  lemma PodRefused(m: Fields, before: Fields, done: set<string>, k: string)
    requires Edited(Pod(), Without(WithoutAlias(m), POD_LIST), before, done) && k !in done && EditedAt(Pod(), before, None, k)
    ensures Strip(Pod(), m).None?
  {
  }

  method NormalizePodPart(pod: Fields, k: string) returns (r: Option<Fields>)
    requires k in POD_PARTS
    ensures EditedAt(Pod(), pod, r, k)
  {
    if k !in pod {
      return Some(pod);
    }
    var part: Option<Json>;
    if k == "volumes" {
      part := NormalizeEachVolume(pod[k]);
    } else {
      part := NormalizeEachContainer(pod[k]);
    }
    r := if part.Some? then Some(pod[k := part.value]) else None;
  }

  method NormalizePod(m: Fields) returns (r: Option<Fields>)
    ensures r == Strip(Pod(), m)
  {
    assert |"volumes"| == 7 && |"containers"| == 10 && |"initContainers"| == 14;
    hide Strip, Edited, EditedAt, Without, Pod, WithoutAlias;
    var pod := PopAlias(m);
    pod := PopDefaults(pod, POD_LIST);
    ghost var base := pod;
    NothingEdited(Pod(), pod);
    var volumes := NormalizePodPart(pod, "volumes");
    if volumes.None? {
      PodRefused(m, pod, {}, "volumes");
      return None;
    }
    OneMore(Pod(), base, pod, volumes.value, {}, "volumes");
    var containers := NormalizePodPart(volumes.value, "containers");
    if containers.None? {
      PodRefused(m, volumes.value, {"volumes"}, "containers");
      return None;
    }
    OneMore(Pod(), base, volumes.value, containers.value, {"volumes"}, "containers");
    var inits := NormalizePodPart(containers.value, "initContainers");
    if inits.None? {
      PodRefused(m, containers.value, {"volumes", "containers"}, "initContainers");
      return None;
    }
    OneMore(Pod(), base, containers.value, inits.value, {"volumes", "containers"}, "initContainers");
    assert {"volumes", "containers"} + {"initContainers"} == POD_PARTS;
    PodFinished(m, inits.value);
    r := inits;
  }

  method PopAlias(m: Fields) returns (r: Fields)
    ensures r == WithoutAlias(m)
  {
    r := m;
    if Get(m, "serviceAccount") == Get(m, "serviceAccountName") {
      r := r - {"serviceAccount"};
    }
  }

  method NormalizeTemplate(m: Fields) returns (r: Option<Fields>)
    ensures r == Strip(Template(), m)
  {
    assert "metadata" != "spec" by { assert |"metadata"| != |"spec"|; }
    if "metadata" !in m || !m["metadata"].Dict? || "spec" !in m || !m["spec"].Dict? {
      return None;
    }
    var meta := m["metadata"].fields - {"creationTimestamp"};
    AsPrescribed(TemplateMeta(), m["metadata"].fields, meta);
    var pod := NormalizePod(m["spec"].fields);
    if pod.None? {
      return None;
    }
    var template := m["metadata" := Dict(meta)]["spec" := Dict(pod.value)];
    hide Pod;
    AsPrescribed(Template(), m, template);
    r := Some(template);
  }

  const DEPLOYMENT_LIST: seq<(string, Json)> := [
    ("progressDeadlineSeconds", Num(600)), ("revisionHistoryLimit", Num(10)), ("paused", Num(0)),
    ("strategy", Dict(map["type" := Text("RollingUpdate"),
                          "rollingUpdate" := Dict(map["maxSurge" := Text("25%"), "maxUnavailable" := Text("25%")])]))]

  lemma DeploymentLists()
    ensures Spells(DEPLOYMENT_LIST, DEPLOYMENT) && {"template"} !! DEPLOYMENT.Keys
  {
    NotADeploymentDefault();
  }

  method NormalizeDeployment(m: Fields) returns (r: Option<Fields>)
    ensures r == Strip(Deployment(), m)
  {
    DeploymentLists();
    hide Template, Spells;
    var spec := PopDefaults(m, DEPLOYMENT_LIST);
    if "template" !in spec || !spec["template"].Dict? {
      return None;
    }
    var template := NormalizeTemplate(spec["template"].fields);
    if template.None? {
      assert EditDeployment("template", m["template"]).None?;
      return None;
    }
    ghost var base := spec;
    spec := spec["template" := Dict(template.value)];
    DeploymentDone(m, base, spec);
    r := Some(spec);
  }

  lemma DeploymentDone(m: Fields, base: Fields, spec: Fields)
    requires base == Without(m, DEPLOYMENT_LIST) && "template" in base
    requires EditDeployment("template", base["template"]).Some?
    requires spec == base["template" := EditDeployment("template", base["template"]).value]
    ensures Strip(Deployment(), m) == Some(spec)
  {
    DeploymentLists();
    hide Template, Strip, Spells, Without;
    assert Edited(Deployment(), base, spec, {"template"});
    assert base.Keys <= m.Keys by { KeysOfWithout(m, DEPLOYMENT_LIST); }
    Finished(Deployment(), m, DEPLOYMENT_LIST, spec, {"template"});
  }

  lemma KeysOfWithout(m: Fields, defaults: seq<(string, Json)>)
    ensures Without(m, defaults).Keys <= m.Keys
  {
  }

  const SERVICE_LIST: seq<(string, Json)> := [
    ("type", Text("ClusterIP")), ("sessionAffinity", Text("None")), ("internalTrafficPolicy", Text("Cluster")),
    ("ipFamilyPolicy", Text("SingleStack")), ("ipFamilies", List([Text("IPv4")]))]

  method NormalizeService(m: Fields, ipv4: Json -> bool) returns (r: Option<Json>)
    ensures r == StripService(ipv4, Dict(m))
  {
    if !IsInternal(m, ipv4) {
      return None;
    }
    var spec := m - {"clusterIP", "clusterIPs"};
    spec := PopDefaults(spec, SERVICE_LIST);
    ServiceDone(m, spec);
    r := Some(Dict(spec));
  }

  lemma ServiceDone(m: Fields, spec: Fields)
    requires spec == Without(m - {"clusterIP", "clusterIPs"}, SERVICE_LIST)
    ensures Strip(ServiceSpec(), m) == Some(spec)
  {
    assert Spells(SERVICE_LIST, SERVICE);
    hide Strip;
    forall k
      ensures if StripAt(ServiceSpec(), m, k).Some? then k in spec && spec[k] == StripAt(ServiceSpec(), m, k).value else k !in spec
    {
      assert k in m ==> (IsDefault(ServiceSpec(), k, m[k]) <==> (k, m[k]) in SERVICE_LIST);
    }
    AsPrescribed(ServiceSpec(), m, spec);
  }

  /** `setdefault`, for each direction the policy speaks about. */
  method NormalizePolicy(m: Fields) returns (r: Option<Json>)
    ensures r == StripPolicy(Dict(m))
  {
    var spec := m;
    if "policyTypes" in m {
      if !m["policyTypes"].List? {
        return None;
      }
      assert |"policyTypes"| != |"ingress"|;
      if Text("Ingress") in m["policyTypes"].items && "ingress" !in spec {
        spec := spec["ingress" := List([])];
      }
      if Text("Egress") in m["policyTypes"].items && "egress" !in spec {
        spec := spec["egress" := List([])];
      }
    }
    r := Some(Dict(spec));
  }

  method NormalizeAnnotations(m: Fields, kind: Json) returns (r: Fields)
    ensures Strip(Annotations(kind), m) == Some(r)
  {
    r := m;
    var revision := Get(m, REVISION);
    if kind == Text("Deployment") && revision.Text? && IsNumeral(revision.s) {
      r := r - {REVISION};
    }
    r := r - {LAST_APPLIED};
    assert |REVISION| == 33 && |LAST_APPLIED| == 48;
    AsPrescribed(Annotations(kind), m, r);
  }

  /** An empty set of annotations is none. */
  method NormalizeAnnotationsOf(meta: Fields, kind: Json) returns (r: Option<Fields>)
    ensures if "annotations" !in meta then r == Some(meta)
            else match StripDict(Annotations(kind), meta["annotations"])
              case None => r.None?
              case Some(v) => r == Some(if v == Dict(map[]) then meta - {"annotations"} else meta["annotations" := v])
  {
    if "annotations" !in meta {
      return Some(meta);
    } else if !meta["annotations"].Dict? {
      return None;
    }
    var annotations := NormalizeAnnotations(meta["annotations"].fields, kind);
    r := Some(if annotations == map[] then meta - {"annotations"} else meta["annotations" := Dict(annotations)]);
  }

  method NormalizeMeta(m: Fields, kind: Json) returns (r: Option<Fields>)
    ensures r == Strip(Meta(kind), m)
  {
    MetaNames();
    hide Annotations, StripDict, FillDict, Truthy;
    if Truthy(Get(m, "deletionTimestamp")) {
      assert Truthy(Null) == false by { NullIsFalse(); }
      return None;
    }
    var owned := NormalizeAnnotationsOf(m - SERVER_OWNED, kind);
    if owned.None? {
      return None;
    }
    var meta := owned.value;
    if kind == Text("Kustomization") && Get(meta, "finalizers") == List([Text("finalizers.fluxcd.io")]) {
      meta := meta - {"finalizers"};
    }
    AsPrescribed(Meta(kind), m, meta);
    r := Some(meta);
  }

  lemma NullIsFalse()
    ensures !Truthy(Null)
  {
  }

  lemma MetaNames()
    ensures "deletionTimestamp" != "annotations" && "deletionTimestamp" != "finalizers" && "annotations" != "finalizers"
    ensures "annotations" !in SERVER_OWNED && "finalizers" !in SERVER_OWNED && "deletionTimestamp" !in SERVER_OWNED
  {
    assert |"deletionTimestamp"| == 17 && |"annotations"| == 11 && |"finalizers"| == 10;
    NotServerOwned();
    assert "deletionTimestamp"[0] != "uid"[0] && "deletionTimestamp"[0] != "resourceVersion"[0]
           && "deletionTimestamp"[0] != "generation"[0] && "deletionTimestamp"[0] != "creationTimestamp"[0]
           && "deletionTimestamp"[0] != "managedFields"[0];
  }

  method NormalizeSpec(v: Json, kind: Json, ipv4: Json -> bool) returns (r: Option<Json>)
    ensures r == EditSpec(kind, ipv4, v)
  {
    hide Deployment, IsInternal;
    if kind == Text("Service") && v.Dict? {
      r := NormalizeService(v.fields, ipv4);
    } else if kind == Text("NetworkPolicy") && v.Dict? {
      r := NormalizePolicy(v.fields);
    } else if kind == Text("Deployment") && v.Dict? {
      var spec := NormalizeDeployment(v.fields);
      r := if spec.Some? then Some(Dict(spec.value)) else None;
    } else if kind in {Text("Service"), Text("NetworkPolicy"), Text("Deployment")} {
      r := None;
    } else {
      r := Some(v);
    }
  }

  const ACCOUNT_LIST: seq<(string, Json)> := [("secrets", List([])), ("imagePullSecrets", List([]))]

  lemma ObjectKeys()
    ensures Spells(ACCOUNT_LIST, SERVICE_ACCOUNT) && {"metadata", "kind", "spec", "status"} !! SERVICE_ACCOUNT.Keys
    ensures |{"metadata", "kind", "spec", "status"}| == 4
    ensures "metadata" != "spec" && "metadata" != "kind" && "metadata" != "status" && "spec" != "kind" && "spec" != "status"
            && "kind" != "status"
  {
    assert |"metadata"| == 8 && |"kind"| == 4 && |"spec"| == 4 && |"status"| == 6 && |"secrets"| == 7
           && |"imagePullSecrets"| == 16;
    assert "kind"[0] != "spec"[0];
  }

  /** What the steps on the whole object come to. */
  ghost predicate IsResult(m: Fields, ipv4: Json -> bool, value: Fields) {
    && "kind" in m && "metadata" in m && (m["kind"] == Text("Deployment") ==> "spec" in m)
    && var kind := m["kind"];
    && StripDict(Meta(kind), m["metadata"]).Some?
    && ("spec" in m ==> EditSpec(kind, ipv4, m["spec"]).Some?)
    && var plain := m - {"status", "metadata", "spec"};
    && var popped := if kind == Text("ServiceAccount") then Without(plain, ACCOUNT_LIST) else plain;
    && value == popped["metadata" := StripDict(Meta(kind), m["metadata"]).value]
                + if "spec" in m then map["spec" := EditSpec(kind, ipv4, m["spec"]).value] else map[]
  }

  lemma ObjectDoneAt(m: Fields, ipv4: Json -> bool, value: Fields, k: string)
    requires IsResult(m, ipv4, value)
    ensures var l := Object(m["kind"], ipv4);
            && (k in m && !l.drop(k, m[k]) ==> l.edit(k, m[k]).Some?)
            && if StripAt(l, m, k).Some? then k in value && value[k] == StripAt(l, m, k).value else k !in value
  {
    hide StripDict, EditSpec, Meta, Strip, FillDict, FillSpec, Spells;
    ObjectKeys();
    AccountDefaults(k, if k in m then m[k] else Null);
    var l := Object(m["kind"], ipv4);
    if k in m && k != "metadata" && k != "spec" {
      assert l.edit(k, m[k]) == Some(m[k]);
    }
  }

  lemma ObjectDone(m: Fields, ipv4: Json -> bool, value: Fields)
    requires IsResult(m, ipv4, value)
    ensures Normalize(Dict(m), ipv4) == Some(Dict(value))
  {
    var l := Object(m["kind"], ipv4);
    forall k
      ensures k in m && !l.drop(k, m[k]) ==> l.edit(k, m[k]).Some?
      ensures if StripAt(l, m, k).Some? then k in value && value[k] == StripAt(l, m, k).value else k !in value
    {
      ObjectDoneAt(m, ipv4, value, k);
    }
    hide IsResult, StripDict, EditSpec, Meta, Strip, StripAt, FillDict, FillSpec;
    assert l.required <= m.Keys by { RequiredThere(m, ipv4, value); }
    AsPrescribed(l, m, value);
    AsDict(l, m, value);
  }

  lemma RequiredThere(m: Fields, ipv4: Json -> bool, value: Fields)
    requires IsResult(m, ipv4, value)
    ensures Object(m["kind"], ipv4).required <= m.Keys
  {
  }

  lemma AccountDefaults(k: string, v: Json)
    ensures (k, v) in ACCOUNT_LIST <==> k in SERVICE_ACCOUNT && SERVICE_ACCOUNT[k] == v
  {
    ObjectKeys();
  }

  lemma AsDict(l: Level, m: Fields, r: Fields)
    requires Strip(l, m) == Some(r)
    ensures StripDict(l, Dict(m)) == Some(Dict(r))
  {
  }

  lemma ObjectRefused(m: Fields, ipv4: Json -> bool)
    requires "kind" in m
    requires || "metadata" !in m || StripDict(Meta(m["kind"]), m["metadata"]).None?
             || (m["kind"] == Text("Deployment") && "spec" !in m)
             || ("spec" in m && EditSpec(m["kind"], ipv4, m["spec"]).None?)
    ensures Normalize(Dict(m), ipv4).None?
  {
    ObjectKeys();
    var l := Object(m["kind"], ipv4);
    hide StripDict, EditSpec, Meta, FillDict, FillSpec, Spells;
    assert !Editable(l, m);
    NotAsDict(l, m);
  }

  lemma NotAsDict(l: Level, m: Fields)
    requires !Editable(l, m)
    ensures StripDict(l, Dict(m)).None?
  {
  }

  /** `normalize`, on a copy of the object. */
  method NormalizeObject(obj: Json, ipv4: Json -> bool) returns (r: Option<Json>)
    ensures r == Normalize(obj, ipv4)
  {
    if !obj.Dict? || "kind" !in obj.fields {
      return None;
    }
    ObjectKeys();
    var m, kind := obj.fields, obj.fields["kind"];
    hide Object, EditSpec, Meta, Spells, Without, Normalize;
    if "metadata" !in m || !m["metadata"].Dict? {
      ObjectRefused(m, ipv4);
      return None;
    }
    var meta := NormalizeMeta(m["metadata"].fields, kind);
    if meta.None? || (kind == Text("Deployment") && "spec" !in m) {
      ObjectRefused(m, ipv4);
      return None;
    }
    var value := m - {"status", "metadata", "spec"};
    if kind == Text("ServiceAccount") {
      value := PopDefaults(value, ACCOUNT_LIST);
    }
    value := value["metadata" := Dict(meta.value)];
    if "spec" in m {
      var spec := NormalizeSpec(m["spec"], kind, ipv4);
      if spec.None? {
        ObjectRefused(m, ipv4);
        return None;
      }
      value := value + map["spec" := spec.value];
    }
    ObjectDone(m, ipv4, value);
    r := Some(Dict(value));
  }
}
