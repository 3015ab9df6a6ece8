/**
 * How an AgentDeployment becomes a Deployment and a Service (internal/runs/deployment_controller.go). Objects hold
 * the fields this code manages; rest stands for all others. The environment is a map, since its order is arbitrary.
 */
module DeploymentReconciler {
  import opened Prelude

  /** Label keys: ailab.uipath.com/tenant, .../agent and .../deployment, and everybody else's. */
  datatype Key = TenantKey | AgentKey | DeploymentKey | OtherKey(key: string)

  type Labels = map<Key, string>

  datatype Port = Port(name: string, port: int, protocol: string)

  /** success and scheme are left to the API server's defaults. */
  datatype Probe = Probe(
    path: string, port: int, period: int, timeout: int, failure: int, delay: int,
    success: Option<int>, scheme: Option<string>)

  datatype Container = Container(
    name: string, image: string, ports: seq<Port>, env: map<string, string>, envFrom: Option<string>,
    probe: Option<Probe>, rest: map<string, string>)

  datatype Owner = Owner(kind: string, name: string, uid: string, controller: bool)

  datatype Deployment = Deployment(
    labels: Labels, owners: seq<Owner>, replicas: Option<int>, selector: Option<Labels>, template: Labels,
    containers: seq<Container>, rest: map<string, string>)

  datatype ServicePort = ServicePort(name: string, port: int, target: int, protocol: string)

  datatype Service = Service(
    labels: Labels, owners: seq<Owner>, selector: Labels, ports: seq<ServicePort>, kind: string,
    rest: map<string, string>)

  datatype Spec = Spec(tenant: string, agent: string, image: string, port: int, healthPath: string,
                       env: map<string, string>, secretRef: string)

  datatype AgentDeployment = AgentDeployment(name: string, uid: string, spec: Spec)

  // ---------------------------------------------------------------- what the code asks for

  function AgentLabels(ad: AgentDeployment): Labels {
    map[TenantKey := ad.spec.tenant, AgentKey := ad.spec.agent, DeploymentKey := ad.name]
  }

  function SelectorOf(ad: AgentDeployment): Labels { map[DeploymentKey := ad.name] }

  function PortOrDefault(p: int): int { if p == 0 then 8080 else p }

  function ReadinessProbe(path: string, port: int): Option<Probe> {
    if path == "" then None else Some(Probe(path, port, 10, 3, 3, 2, None, None))
  }

  const NEW_CONTAINER := Container("agent", "", [], map[], None, None, map[])

  function AgentContainer(ad: AgentDeployment, live: Container): Container {
    var port := PortOrDefault(ad.spec.port);
    Container("agent", ad.spec.image, [Port("http", port, "TCP")], ad.spec.env,
              if ad.spec.secretRef != "" then Some(ad.spec.secretRef) else None,
              ReadinessProbe(ad.spec.healthPath, port), live.rest)
  }

  // ---------------------------------------------------------------- ownership

  predicate SameReferent(a: Owner, b: Owner) { a.kind == b.kind && a.name == b.name }

  /** SetControllerReference refuses an object that something else controls. */
  predicate Adoptable(owners: seq<Owner>, ref: Owner) {
    forall k :: 0 <= k < |owners| && owners[k].controller ==> SameReferent(owners[k], ref)
  }

  function Upserted(owners: seq<Owner>, ref: Owner): (after: seq<Owner>)
    ensures exists k :: 0 <= k < |after| && after[k] == ref
  {
    if owners == [] then
      assert [ref][0] == ref;
      [ref]
    else if SameReferent(owners[0], ref) then
      assert ([ref] + owners[1..])[0] == ref;
      [ref] + owners[1..]
    else
      var rest := Upserted(owners[1..], ref);
      assert forall k :: 0 <= k < |rest| ==> ([owners[0]] + rest)[k + 1] == rest[k];
      [owners[0]] + rest
  }

  function RefTo(ad: AgentDeployment): Owner { Owner("AgentDeployment", ad.name, ad.uid, true) }

  lemma {:induction false} UpsertTwice(owners: seq<Owner>, ref: Owner)
    ensures Upserted(Upserted(owners, ref), ref) == Upserted(owners, ref)
    ensures Adoptable(owners, ref) ==> Adoptable(Upserted(owners, ref), ref)
  {
    if owners == [] {
    } else if SameReferent(owners[0], ref) {
      assert ([ref] + owners[1..])[1..] == owners[1..];
    } else {
      UpsertTwice(owners[1..], ref);
      var rest := Upserted(owners[1..], ref);
      assert ([owners[0]] + rest)[1..] == rest;
      if Adoptable(owners, ref) {
        assert Adoptable(owners[1..], ref);
      }
    }
  }

  /** Whoever else is among the owners stays among them. */
  lemma {:induction false} UpsertKeepsOthers(owners: seq<Owner>, ref: Owner, o: Owner)
    requires o in owners && (o.kind != ref.kind || o.name != ref.name)
    ensures o in Upserted(owners, ref)
  {
    if !SameReferent(owners[0], ref) && o != owners[0] {
      UpsertKeepsOthers(owners[1..], ref, o);
    }
  }

  // ---------------------------------------------------------------- the mutate functions

  const NEW_DEPLOYMENT := Deployment(map[], [], None, None, map[], [], map[])
  const NEW_SERVICE := Service(map[], [], map[], [], "", map[])

  function MutatedDeployment(ad: AgentDeployment, d: Deployment): Deployment {
    var cs := if d.containers == [] then [NEW_CONTAINER] else d.containers;
    Deployment(
      d.labels + AgentLabels(ad), Upserted(d.owners, RefTo(ad)), Some(1),
      Some(if d.selector.None? then SelectorOf(ad) else d.selector.value),
      d.template + AgentLabels(ad), cs[0 := AgentContainer(ad, cs[0])], d.rest)
  }

  function MutatedService(ad: AgentDeployment, s: Service): Service {
    var port := PortOrDefault(ad.spec.port);
    Service(s.labels + AgentLabels(ad), Upserted(s.owners, RefTo(ad)), SelectorOf(ad),
            [ServicePort("http", port, port, "TCP")], if s.kind == "" then "ClusterIP" else s.kind, s.rest)
  }

  // ---------------------------------------------------------------- the API server

  /**
   * Defaulting: fixed sets of other fields get values, which may depend on the object, and a probe's two open fields
   * get constants; only where nothing is set.
   */
  datatype Defaults = Defaults(
    success: int, scheme: string,
    containerKeys: set<string>, containerFill: (Container, string) -> string,
    deploymentKeys: set<string>, deploymentFill: (Deployment, string) -> string,
    serviceKeys: set<string>, serviceFill: (Service, string) -> string)

  function FilledProbe(df: Defaults, p: Option<Probe>): (filled: Option<Probe>)
    ensures filled.Some? <==> p.Some?
    ensures p.Some? && p.value.success.Some? && p.value.scheme.Some? ==> filled == p
    ensures filled.Some? ==> filled.value.success.Some? && filled.value.scheme.Some?
  {
    if p.None? then None
    else Some(p.value.(success := if p.value.success.None? then Some(df.success) else p.value.success,
                       scheme := if p.value.scheme.None? then Some(df.scheme) else p.value.scheme))
  }

  function FilledContainer(df: Defaults, c: Container): Container {
    c.(probe := FilledProbe(df, c.probe),
       rest := (map k | k in df.containerKeys :: df.containerFill(c, k)) + c.rest)
  }

  function FilledContainers(df: Defaults, cs: seq<Container>): (r: seq<Container>)
    ensures |r| == |cs| && forall k :: 0 <= k < |cs| ==> r[k] == FilledContainer(df, cs[k])
  {
    seq(|cs|, k requires 0 <= k < |cs| => FilledContainer(df, cs[k]))
  }

  function FilledDeployment(df: Defaults, d: Deployment): Deployment {
    d.(containers := FilledContainers(df, d.containers),
       rest := (map k | k in df.deploymentKeys :: df.deploymentFill(d, k)) + d.rest)
  }

  function FilledService(df: Defaults, s: Service): Service {
    s.(rest := (map k | k in df.serviceKeys :: df.serviceFill(s, k)) + s.rest)
  }

  predicate Keeps<K>(a: map<K, string>, b: map<K, string>) { forall k :: k in a ==> k in b && b[k] == a[k] }

  predicate Within(selector: Labels, template: Labels) { Keeps(selector, template) }

  /** The API server stores a Deployment only if its selector matches its own pods. */
  predicate Selects(d: Deployment) { d.selector.Some? && Within(d.selector.value, d.template) }

  /** What is stored after applyDeployment, and whether it succeeded; None is "no such object". */
  function AppliedDeployment(df: Defaults, ad: AgentDeployment, live: Option<Deployment>): (Option<Deployment>, bool) {
    var d := if live.None? then NEW_DEPLOYMENT else live.value;
    var m := MutatedDeployment(ad, d);
    if !Adoptable(d.owners, RefTo(ad)) then (live, false)
    else if live == Some(m) then (live, true)
    else if !Selects(m) then (live, false)
    else (Some(FilledDeployment(df, m)), true)
  }

  function AppliedService(df: Defaults, ad: AgentDeployment, live: Option<Service>): (Option<Service>, bool) {
    var s := if live.None? then NEW_SERVICE else live.value;
    var m := MutatedService(ad, s);
    if !Adoptable(s.owners, RefTo(ad)) then (live, false)
    else if live == Some(m) then (live, true)
    else (Some(FilledService(df, m)), true)
  }

  // ---------------------------------------------------------------- a fixpoint after one application

  lemma FilledTwice(fill: map<string, string>, rest: map<string, string>)
    requires fill.Keys <= rest.Keys
    ensures fill + rest == rest
  {
  }

  lemma AgentContainerTwice(df: Defaults, ad: AgentDeployment, live: Container)
    ensures var c := FilledContainer(df, AgentContainer(ad, live));
            FilledContainer(df, AgentContainer(ad, c)) == c
  {
    var once := AgentContainer(ad, live);
    var c := FilledContainer(df, once);
    var again := AgentContainer(ad, c);
    FilledTwice(map k | k in df.containerKeys :: df.containerFill(again, k), c.rest);
  }

  lemma SidecarTwice(df: Defaults, c: Container)
    ensures FilledContainer(df, FilledContainer(df, c)) == FilledContainer(df, c)
  {
    var once := FilledContainer(df, c);
    FilledTwice(map k | k in df.containerKeys :: df.containerFill(once, k), once.rest);
  }

  lemma ContainersTwice(df: Defaults, ad: AgentDeployment, cs: seq<Container>)
    requires cs != []
    ensures var once := FilledContainers(df, cs[0 := AgentContainer(ad, cs[0])]);
            FilledContainers(df, once[0 := AgentContainer(ad, once[0])]) == once
  {
    var once := FilledContainers(df, cs[0 := AgentContainer(ad, cs[0])]);
    var again := FilledContainers(df, once[0 := AgentContainer(ad, once[0])]);
    AgentContainerTwice(df, ad, cs[0]);
    forall k | 0 <= k < |once| ensures again[k] == once[k] {
      if k > 0 {
        SidecarTwice(df, cs[k]);
      }
    }
  }

  lemma LabelsTwice(a: Labels, b: Labels)
    ensures (a + b) + b == a + b
  {
  }

  /** From any live state, applying the same AgentDeployment again stores what is stored already. */
  lemma DeploymentFixpoint(df: Defaults, ad: AgentDeployment, live: Option<Deployment>)
    ensures AppliedDeployment(df, ad, AppliedDeployment(df, ad, live).0) == AppliedDeployment(df, ad, live)
  {
    var d := if live.None? then NEW_DEPLOYMENT else live.value;
    if Adoptable(d.owners, RefTo(ad)) {
      var m := MutatedDeployment(ad, d);
      var once := FilledDeployment(df, m);
      var again := MutatedDeployment(ad, once);
      UpsertTwice(d.owners, RefTo(ad));
      LabelsTwice(d.labels, AgentLabels(ad));
      LabelsTwice(d.template, AgentLabels(ad));
      ContainersTwice(df, ad, if d.containers == [] then [NEW_CONTAINER] else d.containers);
      FilledTwice(map k | k in df.deploymentKeys :: df.deploymentFill(again, k), once.rest);
      assert FilledDeployment(df, again) == once;
    }
  }

  lemma ServiceFixpoint(df: Defaults, ad: AgentDeployment, live: Option<Service>)
    ensures AppliedService(df, ad, AppliedService(df, ad, live).0) == AppliedService(df, ad, live)
  {
    var s := if live.None? then NEW_SERVICE else live.value;
    if Adoptable(s.owners, RefTo(ad)) {
      var once := FilledService(df, MutatedService(ad, s));
      var again := MutatedService(ad, once);
      UpsertTwice(s.owners, RefTo(ad));
      LabelsTwice(s.labels, AgentLabels(ad));
      FilledTwice(map k | k in df.serviceKeys :: df.serviceFill(again, k), once.rest);
      assert FilledService(df, again) == once;
    }
  }

  // ---------------------------------------------------------------- what one application keeps and what it sets

  /**
   * Everything this code does not manage survives: other fields, labels under other keys, further containers (but
   * for defaults) and a selector that is there. The managed fields are as the AgentDeployment asks, unless applying
   * fails.
   */
  lemma UnmanagedSurvives(df: Defaults, ad: AgentDeployment, d: Deployment)
    requires AppliedDeployment(df, ad, Some(d)).1
    ensures var r := AppliedDeployment(df, ad, Some(d)).0.value;
            && Keeps(d.rest, r.rest)
            && (forall k :: k in d.labels && k !in AgentLabels(ad) ==> k in r.labels && r.labels[k] == d.labels[k])
            && (forall k :: k in d.template && k !in AgentLabels(ad) ==>
                  k in r.template && r.template[k] == d.template[k])
            && Keeps(AgentLabels(ad), r.labels) && Keeps(AgentLabels(ad), r.template)
            && (d.selector.Some? ==> r.selector == d.selector)
            && |r.containers| == Max(1, |d.containers|)
            && (r == d || forall k :: 1 <= k < |d.containers| ==>
                             r.containers[k] == FilledContainer(df, d.containers[k]))
            && (d.containers != [] ==> Keeps(d.containers[0].rest, r.containers[0].rest))
            && r.containers[0].image == ad.spec.image && r.containers[0].env == ad.spec.env
            && r.containers[0].ports == [Port("http", PortOrDefault(ad.spec.port), "TCP")]
            && (r.containers[0].probe.Some? <==> ad.spec.healthPath != "")
    ensures var r := AppliedDeployment(df, ad, Some(d)).0.value;
            && r.replicas == Some(1) && r.containers[0].name == "agent"
            && (if ad.spec.secretRef == "" then r.containers[0].envFrom.None?
                else r.containers[0].envFrom == Some(ad.spec.secretRef))
            && (r.containers[0].probe.Some? ==>
                  && r.containers[0].probe.value.path == ad.spec.healthPath
                  && r.containers[0].probe.value.port == PortOrDefault(ad.spec.port)
                  && r.containers[0].probe.value.period == 10 && r.containers[0].probe.value.timeout == 3
                  && r.containers[0].probe.value.failure == 3 && r.containers[0].probe.value.delay == 2)
            && exists k :: 0 <= k < |r.owners| && r.owners[k] == Owner("AgentDeployment", ad.name, ad.uid, true)
  {
    var m := MutatedDeployment(ad, d);
    assert FilledDeployment(df, m).containers[0] == FilledContainer(df, m.containers[0]);
  }

  /** Something else controls the Deployment. */
  predicate Owned(ad: AgentDeployment, d: Deployment) {
    exists k :: 0 <= k < |d.owners| && d.owners[k].controller
                && (d.owners[k].kind != "AgentDeployment" || d.owners[k].name != ad.name)
  }

  /** Its selector asks for another value under a managed key. */
  predicate SelectsOthers(ad: AgentDeployment, d: Deployment) {
    && d.selector.Some?
    && exists k :: k in d.selector.value && k in AgentLabels(ad) && d.selector.value[k] != AgentLabels(ad)[k]
  }

  /**
   * The Service as applied: other fields and labels survive, and so does a type that is there; it selects the
   * deployment's pods on the one port they listen on.
   */
  lemma ServiceAsAsked(df: Defaults, ad: AgentDeployment, s: Service)
    requires AppliedService(df, ad, Some(s)).1
    ensures var r := AppliedService(df, ad, Some(s)).0.value;
            && Keeps(s.rest, r.rest)
            && (forall k :: k in s.labels && k !in AgentLabels(ad) ==> k in r.labels && r.labels[k] == s.labels[k])
            && Keeps(AgentLabels(ad), r.labels)
            && r.selector == map[DeploymentKey := ad.name]
            && |r.ports| == 1 && r.ports[0].name == "http" && r.ports[0].protocol == "TCP"
            && r.ports[0].port == r.ports[0].target == (if ad.spec.port == 0 then 8080 else ad.spec.port)
            && r.kind == (if s.kind == "" then "ClusterIP" else s.kind)
            && exists k :: 0 <= k < |r.owners| && r.owners[k] == Owner("AgentDeployment", ad.name, ad.uid, true)
  {
  }

  /** The labels under which everything is filed. */
  lemma ManagedLabels(ad: AgentDeployment)
    ensures AgentLabels(ad).Keys == {TenantKey, AgentKey, DeploymentKey}
    ensures AgentLabels(ad)[TenantKey] == ad.spec.tenant && AgentLabels(ad)[AgentKey] == ad.spec.agent
    ensures AgentLabels(ad)[DeploymentKey] == ad.name
  {
  }

  lemma SelectsMerged(ad: AgentDeployment, d: Deployment)
    requires Selects(d)
    ensures Selects(MutatedDeployment(ad, d)) <==> !SelectsOthers(ad, d)
  {
    var after := MutatedDeployment(ad, d);
    assert after.template == d.template + AgentLabels(ad) && after.selector == d.selector;
  }

  /**
   * When applying to a live Deployment fails: exactly when something else controls it, or its selector, which cannot
   * be changed, asks for another value under a managed key. It is then left alone, now and whenever the same is
   * applied again; otherwise it goes on selecting its pods. Creating one never fails so.
   */
  lemma RefusedIff(df: Defaults, ad: AgentDeployment, d: Deployment)
    requires Selects(d)
    ensures !AppliedDeployment(df, ad, Some(d)).1 <==> Owned(ad, d) || SelectsOthers(ad, d)
    ensures !AppliedDeployment(df, ad, Some(d)).1 ==> AppliedDeployment(df, ad, Some(d)).0 == Some(d)
    ensures Selects(AppliedDeployment(df, ad, Some(d)).0.value)
    ensures AppliedDeployment(df, ad, None).1 && Selects(AppliedDeployment(df, ad, None).0.value)
  {
    SelectsMerged(ad, d);
    assert Adoptable(d.owners, RefTo(ad)) <==> !Owned(ad, d);
    var made := MutatedDeployment(ad, NEW_DEPLOYMENT);
    assert made.template[DeploymentKey] == ad.name;
  }

  /** A change somebody else may make to a Deployment: the selector is immutable and must keep matching. */
  predicate LegalEdit(a: Deployment, b: Deployment) { b.selector == a.selector && Selects(b) }

  datatype Change = Apply(spec: Spec) | Edit(to: Deployment)

  /** The life of the Deployment that the AgentDeployment name owns, from before its creation. */
  function Lived(df: Defaults, name: string, uid: string, changes: seq<Change>): Option<Deployment> {
    if changes == [] then None
    else
      var d := Lived(df, name, uid, changes[..|changes| - 1]);
      match changes[|changes| - 1]
      case Apply(spec) => AppliedDeployment(df, AgentDeployment(name, uid, spec), d).0
      case Edit(to) => if d.Some? && LegalEdit(d.value, to) then Some(to) else d
  }

  /** As this code creates it. */
  predicate Ours(name: string, live: Option<Deployment>) {
    live.Some? ==> live.value.selector == Some(map[DeploymentKey := name]) && Selects(live.value)
  }

  lemma ApplyKeepsOurs(df: Defaults, ad: AgentDeployment, live: Option<Deployment>)
    requires Ours(ad.name, live)
    ensures Ours(ad.name, AppliedDeployment(df, ad, live).0)
    ensures live.Some? ==> (AppliedDeployment(df, ad, live).1 <==> !Owned(ad, live.value))
  {
    if live.Some? {
      RefusedIff(df, ad, live.value);
      assert !SelectsOthers(ad, live.value);
    }
  }

  lemma ServiceSelects(df: Defaults, ad: AgentDeployment, live: Option<Service>, d: Deployment)
    requires Ours(ad.name, Some(d)) && AppliedService(df, ad, live).1
    ensures Within(AppliedService(df, ad, live).0.value.selector, d.template)
  {
  }

  lemma {:induction false} StaysOurs(df: Defaults, name: string, uid: string, changes: seq<Change>)
    ensures Ours(name, Lived(df, name, uid, changes))
  {
    if changes != [] {
      var front := changes[..|changes| - 1];
      StaysOurs(df, name, uid, front);
      match changes[|changes| - 1]
      case Apply(spec) => ApplyKeepsOurs(df, AgentDeployment(name, uid, spec), Lived(df, name, uid, front));
      case Edit(_) =>
    }
  }

  /**
   * Whatever the sequence of specs and of other people's edits, a Deployment this code created keeps selecting its
   * own pods, and so does the Service, whatever was in its place; so applying to it fails only once something else
   * controls it.
   */
  lemma CreatedHereKeepsSelecting(df: Defaults, name: string, uid: string, changes: seq<Change>)
    ensures var d := Lived(df, name, uid, changes);
            d.Some? ==> d.value.selector == Some(map[DeploymentKey := name]) && Selects(d.value)
    ensures forall spec, live ::
              var ad := AgentDeployment(name, uid, spec);
              var d, s := Lived(df, name, uid, changes), AppliedService(df, ad, live);
              d.Some? && s.1 ==> Within(s.0.value.selector, d.value.template)
    ensures forall spec ::
              var ad, d := AgentDeployment(name, uid, spec), Lived(df, name, uid, changes);
              d.Some? ==> (AppliedDeployment(df, ad, d).1 <==> !Owned(ad, d.value))
  {
    var d := Lived(df, name, uid, changes);
    StaysOurs(df, name, uid, changes);
    forall spec, live | d.Some? && AppliedService(df, AgentDeployment(name, uid, spec), live).1
      ensures Within(AppliedService(df, AgentDeployment(name, uid, spec), live).0.value.selector, d.value.template)
    {
      ServiceSelects(df, AgentDeployment(name, uid, spec), live, d.value);
    }
    forall spec | d.Some?
      ensures var ad := AgentDeployment(name, uid, spec);
              AppliedDeployment(df, ad, d).1 <==> !Owned(ad, d.value)
    {
      ApplyKeepsOurs(df, AgentDeployment(name, uid, spec), d);
    }
  }

  // ---------------------------------------------------------------- the reconciler as it is written

  /** mergeMap and the loop of mergeLabels. */
  method MergeMap(dst: Labels, in_: Labels) returns (merged: Labels)
    ensures merged == dst + in_
  {
    MergeEnds(dst, in_);
    merged := dst;
    var todo := in_.Keys;
    while todo != {}
      invariant todo <= in_.Keys
      invariant merged == MergedSoFar(dst, in_, todo)
      decreases |todo|
    {
      var k :| k in todo;
      MergeOne(dst, in_, todo, k);
      todo := todo - {k};
      merged := merged[k := in_[k]];
    }
  }

  function MergedSoFar(dst: Labels, in_: Labels, todo: set<Key>): Labels {
    dst + (map k | k in in_ && k !in todo :: in_[k])
  }

  lemma MergeEnds(dst: Labels, in_: Labels)
    ensures MergedSoFar(dst, in_, in_.Keys) == dst && MergedSoFar(dst, in_, {}) == dst + in_
  {
    assert (map k | k in in_ && k !in {} :: in_[k]) == in_;
  }

  lemma MergeOne(dst: Labels, in_: Labels, todo: set<Key>, k: Key)
    requires k in todo && todo <= in_.Keys
    ensures MergedSoFar(dst, in_, todo - {k}) == MergedSoFar(dst, in_, todo)[k := in_[k]]
  {
  }

  /** SetControllerReference on an object's owner list. */
  method SetControllerReference(owners: seq<Owner>, ref: Owner) returns (ok: bool, after: seq<Owner>)
    ensures ok == Adoptable(owners, ref)
    ensures after == if ok then Upserted(owners, ref) else owners
  {
    var k := 0;
    while k < |owners|
      invariant 0 <= k <= |owners|
      invariant forall j :: 0 <= j < k && owners[j].controller ==> SameReferent(owners[j], ref)
    {
      if owners[k].controller && !SameReferent(owners[k], ref) {
        return false, owners;
      }
      k := k + 1;
    }
    return true, Upserted(owners, ref);
  }

  /** A Deployment in memory, as the mutate function sees it. */
  class DeploymentObject {
    var labels: Labels
    var owners: seq<Owner>
    var replicas: Option<int>
    var selector: Option<Labels>
    var template: Labels
    var containers: seq<Container>
    var rest: map<string, string>

    constructor (d: Deployment)
      ensures View() == d
    {
      labels, owners, replicas, selector := d.labels, d.owners, d.replicas, d.selector;
      template, containers, rest := d.template, d.containers, d.rest;
    }

    function View(): Deployment
      reads this
    {
      Deployment(labels, owners, replicas, selector, template, containers, rest)
    }

    /** On failure the object is dropped, so only success says what it holds. */
    method Mutate(ad: AgentDeployment) returns (ok: bool)
      modifies this
      ensures ok == Adoptable(old(owners), RefTo(ad))
      ensures ok ==> View() == MutatedDeployment(ad, old(View()))
    {
      var port := PortOrDefault(ad.spec.port);
      labels := MergeMap(labels, AgentLabels(ad));
      MutateSpec(ad, port);
      ok, owners := SetControllerReference(owners, RefTo(ad));
    }

    /** The spec's part of the mutate function. */
    method MutateSpec(ad: AgentDeployment, port: int)
      requires port == PortOrDefault(ad.spec.port)
      modifies this`replicas, this`selector, this`template, this`containers
      ensures replicas == MutatedDeployment(ad, old(View())).replicas
      ensures selector == MutatedDeployment(ad, old(View())).selector
      ensures template == MutatedDeployment(ad, old(View())).template
      ensures containers == MutatedDeployment(ad, old(View())).containers
    {
      replicas := Some(1);
      if selector.None? {
        selector := Some(map[DeploymentKey := ad.name]);
      }
      template := MergeMap(template, AgentLabels(ad));
      if |containers| == 0 {
        containers := [NEW_CONTAINER];
      }
      SetAgentContainer(ad, port);
    }

    method SetAgentContainer(ad: AgentDeployment, port: int)
      requires containers != [] && port == PortOrDefault(ad.spec.port)
      modifies this`containers
      ensures containers == old(containers)[0 := AgentContainer(ad, old(containers)[0])]
    {
      var c := containers[0];
      c := c.(name := "agent", image := ad.spec.image, ports := [Port("http", port, "TCP")], env := ad.spec.env,
              envFrom := None);
      if ad.spec.secretRef != "" {
        c := c.(envFrom := Some(ad.spec.secretRef));
      }
      c := c.(probe := ReadinessProbe(ad.spec.healthPath, port));
      containers := containers[0 := c];
    }
  }

  class ServiceObject {
    var labels: Labels
    var owners: seq<Owner>
    var selector: Labels
    var ports: seq<ServicePort>
    var kind: string
    var rest: map<string, string>

    constructor (s: Service)
      ensures View() == s
    {
      labels, owners, selector, ports, kind, rest := s.labels, s.owners, s.selector, s.ports, s.kind, s.rest;
    }

    function View(): Service
      reads this
    {
      Service(labels, owners, selector, ports, kind, rest)
    }

    method Mutate(ad: AgentDeployment) returns (ok: bool)
      modifies this
      ensures ok == Adoptable(old(owners), RefTo(ad))
      ensures ok ==> View() == MutatedService(ad, old(View()))
    {
      var port := PortOrDefault(ad.spec.port);
      labels := MergeMap(labels, AgentLabels(ad));
      selector := map[DeploymentKey := ad.name];
      ports := [ServicePort("http", port, port, "TCP")];
      if kind == "" {
        kind := "ClusterIP";
      }
      ok, owners := SetControllerReference(owners, RefTo(ad));
    }
  }

  /** The Deployment and the Service under one name, as the API server stores them. */
  class Cluster {
    var deployment: Option<Deployment>
    var service: Option<Service>
    const df: Defaults

    constructor (df: Defaults)
      ensures this.df == df && deployment == None && service == None
    {
      this.df := df;
      deployment, service := None, None;
    }

    /** The API server's side of a create or an update. */
    method UpdateDeployment(d: Deployment) returns (ok: bool)
      modifies this`deployment
      ensures ok == Selects(d)
      ensures deployment == if ok then Some(FilledDeployment(df, d)) else old(deployment)
    {
      ok := Selects(d);
      if ok {
        deployment := Some(FilledDeployment(df, d));
      }
    }

    /** CreateOrUpdate: get or start afresh, mutate, and write back unless nothing changed. */
    method ApplyDeployment(ad: AgentDeployment) returns (ok: bool)
      modifies this`deployment
      ensures (deployment, ok) == AppliedDeployment(df, ad, old(deployment))
    {
      var live := if deployment.None? then NEW_DEPLOYMENT else deployment.value;
      var obj := new DeploymentObject(live);
      ok := obj.Mutate(ad);
      if ok && deployment != Some(obj.View()) {
        ok := UpdateDeployment(obj.View());
      }
    }

    method ApplyService(ad: AgentDeployment) returns (ok: bool)
      modifies this`service
      ensures (service, ok) == AppliedService(df, ad, old(service))
    {
      var live := if service.None? then NEW_SERVICE else service.value;
      var obj := new ServiceObject(live);
      ok := obj.Mutate(ad);
      if ok && service != Some(obj.View()) {
        service := Some(FilledService(df, obj.View()));
      }
    }

    /** Reconcile, up to the status it then writes: a refused Deployment keeps the Service from being applied. */
    method Reconcile(ad: AgentDeployment) returns (ok: bool)
      modifies this`deployment, this`service
      ensures deployment == AppliedDeployment(df, ad, old(deployment)).0
      ensures service == if AppliedDeployment(df, ad, old(deployment)).1 then AppliedService(df, ad, old(service)).0
                         else old(service)
      ensures ok == (AppliedDeployment(df, ad, old(deployment)).1 && AppliedService(df, ad, old(service)).1)
    {
      ok := ApplyDeployment(ad);
      if ok {
        ok := ApplyService(ad);
      }
    }
  }
}
