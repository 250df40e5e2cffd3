/**
 Reconcile passes of the TrustManager controller
 (pkg/controller/trustmanager/install_trustmanager.go, configmaps.go, serviceaccounts.go,
 rbacs.go, webhooks.go).

 A pass walks the managed resources in order. Each one is applied only when it is missing or
 drifted, and later ones depend on earlier ones: the deployment is stamped with the UID of the
 live service account and the hash of the CA bundle, and all of them get their labels from one
 map, into which the builder of the cluster-view role writes a label of its own. Every read and
 every write of a pass may fail, a write also after it has taken effect, unless the API server
 is `healthy`.

 `Cluster` is the API server. Its log has one entry per pass and per outside edit, with the
 applies that were sent, so that convergence is a statement about every run.
 */
module TrustManager {
  import opened Outcomes
  import opened TrustDeployment
  import Tls = TlsProfile

  /** A managed resource without server-made content; `body` is the part that is compared. */
  datatype Resource = Resource(labels: StringMap, annotations: StringMap, body: string)

  datatype ServiceAccount = ServiceAccount(uid: string, labels: StringMap, annotations: StringMap, automount: string)

  /** The JSON package; its encoding is injective and left out. */
  datatype CaPackage = CaPackage(name: string, bundle: string, version: string)

  datatype PackageConfigMap = PackageConfigMap(labels: StringMap, annotations: StringMap, package: CaPackage)

  /** The injected ConfigMap; `bundle` is None when the key is missing. */
  datatype CaSource = CaSource(bundle: Option<string>, resourceVersion: string)

  datatype Observed = Observed(image: string, trustNamespace: string, secretTargets: string, defaultCa: string, filterExpired: string)

  /** The resources that depend on the configuration alone; the first two roles move with the trust namespace. */
  datatype Static =
    | ClusterRole
    | ClusterRoleBinding
    | TrustNamespaceRole(namespace: string)
    | TrustNamespaceRoleBinding(namespace: string)
    | LeaderElectionRole
    | LeaderElectionRoleBinding
    | ClusterViewRole
    | WebhookService
    | MetricsService
    | Issuer
    | Certificate
    | WebhookConfiguration

  datatype Key = PackageKey | AccountKey | StaticKey(resource: Static) | DeploymentKey

  /** The order of a pass: the cluster-view role and the webhook configuration come after these lists. */
  function BeforeClusterView(config: Config): seq<Static> {
    [ClusterRole, ClusterRoleBinding, TrustNamespaceRole(TrustNamespace(config)), TrustNamespaceRoleBinding(TrustNamespace(config)),
     LeaderElectionRole, LeaderElectionRoleBinding]
  }

  const AFTER_CLUSTER_VIEW := [WebhookService, MetricsService, Issuer, Certificate]

  function PassOrder(config: Config): seq<Key> {
    [PackageKey, AccountKey, StaticKey(ClusterRole), StaticKey(ClusterRoleBinding),
     StaticKey(TrustNamespaceRole(TrustNamespace(config))), StaticKey(TrustNamespaceRoleBinding(TrustNamespace(config))),
     StaticKey(LeaderElectionRole), StaticKey(LeaderElectionRoleBinding), StaticKey(ClusterViewRole),
     StaticKey(WebhookService), StaticKey(MetricsService), StaticKey(Issuer), StaticKey(Certificate),
     DeploymentKey, StaticKey(WebhookConfiguration)]
  }

  const CLUSTER_VIEW_POSITION := 8

  /** The operator's environment; `staticBody` is what the manifest of a static resource becomes. */
  datatype Operator = Operator(
    image: string,
    version: string,
    manifest: Deployment,
    automount: string,
    staticBody: (Config, Static) -> string,
    configValid: Config -> bool,
    lib: Tls.Library,
    hash: string -> string)

  const AGGREGATE_LABEL := "rbac.authorization.k8s.io/aggregate-to-cluster-reader"
  const INJECT_ANNOTATION := "cert-manager.io/inject-ca-from-secret"

  function DefaultLabels(op: Operator): StringMap {
    map[
      "app" := "cert-manager-trust-manager",
      "app.kubernetes.io/name" := "cert-manager-trust-manager",
      "app.kubernetes.io/instance" := "cert-manager-trust-manager",
      "app.kubernetes.io/version" := op.version,
      "app.kubernetes.io/managed-by" := "cert-manager-operator",
      "app.kubernetes.io/part-of" := "cert-manager-operator"
    ]
  }

  /** The labels a pass starts with. */
  function ResourceLabels(config: Config, op: Operator): StringMap {
    config.labels + DefaultLabels(op)
  }

  /** Built when the cluster-view role has already written its label into the shared map. */
  predicate Aggregated(key: Key) {
    match key
    case PackageKey => false
    case AccountKey => false
    case DeploymentKey => true
    case StaticKey(s) =>
      s.ClusterViewRole? || s.WebhookService? || s.MetricsService? || s.Issuer? || s.Certificate? || s.WebhookConfiguration?
  }

  function ManagedLabels(config: Config, op: Operator, key: Key): StringMap {
    if Aggregated(key) then ResourceLabels(config, op)[AGGREGATE_LABEL := "true"] else ResourceLabels(config, op)
  }

  /** Of the manifests only the deployment's annotations are kept; the webhook configuration adds its own one. */
  function ManagedAnnotations(config: Config, op: Operator, key: Key): StringMap {
    match key
    case DeploymentKey => op.manifest.annotations + config.annotations
    case StaticKey(WebhookConfiguration) => config.annotations[INJECT_ANNOTATION := "cert-manager/trust-manager-tls"]
    case _ => config.annotations
  }

  ghost predicate Has(m: StringMap, key: string, value: string) {
    key in m && m[key] == value
  }

  ghost predicate Reserved(key: string) {
    || key == "app" || key == "app.kubernetes.io/name" || key == "app.kubernetes.io/instance" || key == "app.kubernetes.io/version"
    || key == "app.kubernetes.io/managed-by" || key == "app.kubernetes.io/part-of"
  }

  /** The labels of a managed resource, one by one. */
  ghost predicate LabelledFor(labels: StringMap, config: Config, version: string, aggregated: bool) {
    && Has(labels, "app", "cert-manager-trust-manager")
    && Has(labels, "app.kubernetes.io/name", "cert-manager-trust-manager")
    && Has(labels, "app.kubernetes.io/instance", "cert-manager-trust-manager")
    && Has(labels, "app.kubernetes.io/version", version)
    && Has(labels, "app.kubernetes.io/managed-by", "cert-manager-operator")
    && Has(labels, "app.kubernetes.io/part-of", "cert-manager-operator")
    && (aggregated ==> Has(labels, "rbac.authorization.k8s.io/aggregate-to-cluster-reader", "true"))
    && (forall k :: k in config.labels && !Reserved(k) && !(aggregated && k == "rbac.authorization.k8s.io/aggregate-to-cluster-reader") ==>
                      Has(labels, k, config.labels[k]))
    && (forall k :: k in labels ==>
                      Reserved(k) || k in config.labels || (aggregated && k == "rbac.authorization.k8s.io/aggregate-to-cluster-reader"))
  }

  lemma DefaultLabelsAre(op: Operator)
    ensures var l := DefaultLabels(op);
            && Has(l, "app", "cert-manager-trust-manager") && Has(l, "app.kubernetes.io/name", "cert-manager-trust-manager")
            && Has(l, "app.kubernetes.io/instance", "cert-manager-trust-manager") && Has(l, "app.kubernetes.io/version", op.version)
            && Has(l, "app.kubernetes.io/managed-by", "cert-manager-operator") && Has(l, "app.kubernetes.io/part-of", "cert-manager-operator")
            && (forall k :: k in l ==> Reserved(k)) && AGGREGATE_LABEL !in l
  {
    assert "app.kubernetes.io/version"[18] != "app.kubernetes.io/part-of"[18];
    AggregateIsNoDefault(op);
  }

  lemma ManagedLabelsAre(config: Config, op: Operator, key: Key)
    ensures LabelledFor(ManagedLabels(config, op, key), config, op.version, Aggregated(key))
  {
    hide DefaultLabels;
    DefaultLabelsAre(op);
  }

  /** The annotations of a managed resource, one by one. */
  ghost predicate AnnotatedFor(annotations: StringMap, config: Config, op: Operator, key: Key) {
    var webhook := key == StaticKey(WebhookConfiguration);
    && (webhook ==> Has(annotations, "cert-manager.io/inject-ca-from-secret", "cert-manager/trust-manager-tls"))
    && (forall k :: k in config.annotations && !(webhook && k == "cert-manager.io/inject-ca-from-secret") ==> Has(annotations, k, config.annotations[k]))
    && (forall k :: k in annotations ==>
                      || k in config.annotations || (webhook && k == "cert-manager.io/inject-ca-from-secret")
                      || (key == DeploymentKey && Has(op.manifest.annotations, k, annotations[k])))
  }

  lemma ManagedAnnotationsAre(config: Config, op: Operator, key: Key)
    ensures AnnotatedFor(ManagedAnnotations(config, op, key), config, op, key)
  {
  }

  /** An apply that was sent, with the metadata it claims. */
  datatype Patch = Patch(key: Key, labels: StringMap, annotations: StringMap)

  function PatchFor(config: Config, op: Operator, key: Key): Patch {
    Patch(key, ManagedLabels(config, op, key), ManagedAnnotations(config, op, key))
  }

  function DesiredPackage(source: CaSource): CaPackage
    requires source.bundle.Some?
  {
    CaPackage("cert-manager-package-openshift", source.bundle.value, source.resourceVersion)
  }

  function DesiredObserved(config: Config, op: Operator): Observed {
    Observed(op.image, TrustNamespace(config), config.secretTargetsPolicy, config.defaultCaPolicy, config.filterExpired)
  }

  /** The hash the deployment is stamped with: none when the feature is off. */
  function BundleHash(config: Config, op: Operator, source: Option<CaSource>): string {
    if DefaultCaEnabled(config) && source.Some? && source.value.bundle.Some? then op.hash(source.value.bundle.value) else ""
  }

  function ContextFor(config: Config, op: Operator, source: Option<CaSource>, fetched: Tls.Fetched, uid: string): Context {
    Context(op.manifest, ManagedLabels(config, op, DeploymentKey), op.image, op.lib, fetched, BundleHash(config, op, source), uid)
  }

  // ----- The label that leaks -----

  lemma AggregateIsNoDefault(op: Operator)
    ensures AGGREGATE_LABEL !in DefaultLabels(op)
  {
    assert |AGGREGATE_LABEL| == 53;
    assert forall k :: k in DefaultLabels(op) ==> |k| < 30;
  }

  /** A resource carries the cluster-view role's label exactly when it comes at or after that role, or when the user sets it. */
  lemma LeakExactly(config: Config, op: Operator, i: nat)
    requires i < |PassOrder(config)|
    ensures var labels := ManagedLabels(config, op, PassOrder(config)[i]);
            && (AGGREGATE_LABEL in labels <==> i >= CLUSTER_VIEW_POSITION || AGGREGATE_LABEL in config.labels)
            && (i >= CLUSTER_VIEW_POSITION ==> labels[AGGREGATE_LABEL] == "true")
    ensures PassOrder(config)[CLUSTER_VIEW_POSITION] == StaticKey(ClusterViewRole)
    ensures Aggregated(PassOrder(config)[i]) <==> i >= CLUSTER_VIEW_POSITION
  {
    hide DefaultLabels;
    AggregateIsNoDefault(op);
  }

  /** The failing input: no user labels at all, and still the pods are labelled as a role to be aggregated. */
  lemma PodsCarryRoleLabel(config: Config, ctx: Context, op: Operator)
    requires config.labels == map[] && Desired(config, ctx).Ok? && ctx.labels == ManagedLabels(config, op, DeploymentKey)
    ensures AGGREGATE_LABEL !in ResourceLabels(config, op)
    ensures AGGREGATE_LABEL in Desired(config, ctx).value.templateLabels
  {
    hide DefaultLabels, Desired;
    AggregateIsNoDefault(op);
    DesiredTemplateLabels(config, ctx);
  }

  // ----- When nothing is left to do -----

  ghost predicate MetadataDrifted(config: Config, op: Operator, key: Key, labels: StringMap, annotations: StringMap) {
    EntriesModified(ManagedLabels(config, op, key), labels) || EntriesModified(ManagedAnnotations(config, op, key), annotations)
  }

  ghost predicate PackageCurrent(config: Config, op: Operator, source: Option<CaSource>, package: Option<PackageConfigMap>) {
    DefaultCaEnabled(config) ==>
      && source.Some? && source.value.bundle.Some?
      && package.Some? && package.value.package == DesiredPackage(source.value)
      && !MetadataDrifted(config, op, PackageKey, package.value.labels, package.value.annotations)
  }

  ghost predicate AccountCurrent(config: Config, op: Operator, account: Option<ServiceAccount>) {
    && account.Some? && account.value.automount == op.automount
    && !MetadataDrifted(config, op, AccountKey, account.value.labels, account.value.annotations)
  }

  ghost predicate StaticCurrent(config: Config, op: Operator, statics: map<Static, Resource>, s: Static) {
    && s in statics && statics[s].body == op.staticBody(config, s)
    && !MetadataDrifted(config, op, StaticKey(s), statics[s].labels, statics[s].annotations)
  }

  ghost predicate ListCurrent(config: Config, op: Operator, statics: map<Static, Resource>, list: seq<Static>) {
    forall i :: 0 <= i < |list| ==> StaticCurrent(config, op, statics, list[i])
  }

  /** The static resources up to the certificate. */
  ghost predicate StaticsCurrent(config: Config, op: Operator, statics: map<Static, Resource>) {
    && ListCurrent(config, op, statics, BeforeClusterView(config)) && StaticCurrent(config, op, statics, ClusterViewRole)
    && ListCurrent(config, op, statics, AFTER_CLUSTER_VIEW)
  }

  ghost predicate DeploymentCurrent(config: Config, ctx: Context, deployment: Option<Deployment>) {
    Desired(config, ctx).Ok? && deployment.Some? && !DeploymentModified(Desired(config, ctx).value, deployment.value)
  }

  /** Everything a pass reads and writes. */
  datatype World = World(
    source: Option<CaSource>,
    fetched: Tls.Fetched,
    namespaces: set<string>,
    package: Option<PackageConfigMap>,
    account: Option<ServiceAccount>,
    statics: map<Static, Resource>,
    deployment: Option<Deployment>,
    observed: Observed)

  /** All but the CA package is live and as desired, and the observed state is persisted. */
  ghost predicate ConvergedButPackage(w: World, config: Config, op: Operator) {
    && AccountCurrent(config, op, w.account)
    && StaticsCurrent(config, op, w.statics) && StaticCurrent(config, op, w.statics, WebhookConfiguration)
    && DeploymentCurrent(config, ContextFor(config, op, w.source, w.fetched, w.account.value.uid), w.deployment)
    && w.observed == DesiredObserved(config, op)
  }

  ghost predicate Converged(w: World, config: Config, op: Operator) {
    ConvergedButPackage(w, config, op) && PackageCurrent(config, op, w.source, w.package)
  }

  /** What a pass needs in order to succeed, besides an API server that answers. */
  ghost predicate Passable(w: World, config: Config, op: Operator) {
    && op.configValid(config) && TrustNamespace(config) in w.namespaces
    && (DefaultCaEnabled(config) ==> w.source.Some? && w.source.value.bundle.Some? && w.source.value.bundle.value != "")
    && Buildable(config, op.manifest, op.image, op.lib, w.fetched)
  }

  /** The static resources of a configuration. */
  ghost predicate IsManaged(config: Config, s: Static) {
    var trustNamespace := if config.trustNamespace != "" then config.trustNamespace else "cert-manager";
    && (s.TrustNamespaceRole? ==> s.namespace == trustNamespace)
    && (s.TrustNamespaceRoleBinding? ==> s.namespace == trustNamespace)
  }

  /** A live resource carries the managed labels and annotations; an absent one reads as empty. */
  ghost predicate MetadataInForce(config: Config, op: Operator, key: Key, labels: StringMap, annotations: StringMap) {
    && (forall k :: k in ManagedLabels(config, op, key) ==> (if k in labels then labels[k] else "") == ManagedLabels(config, op, key)[k])
    && (forall k :: k in ManagedAnnotations(config, op, key) ==>
                      (if k in annotations then annotations[k] else "") == ManagedAnnotations(config, op, key)[k])
  }

  lemma UndriftedInForce(config: Config, op: Operator, key: Key, labels: StringMap, annotations: StringMap)
    ensures !MetadataDrifted(config, op, key, labels, annotations) <==> MetadataInForce(config, op, key, labels, annotations)
  {
    hide ManagedLabels, ManagedAnnotations, EntriesModified;
    EntriesUnmodifiedMeans(ManagedLabels(config, op, key), labels);
    EntriesUnmodifiedMeans(ManagedAnnotations(config, op, key), annotations);
  }

  /** Package, account, static resources and observed state are what the configuration asks for. */
  ghost predicate ResourcesInForce(w: World, config: Config, op: Operator) {
    && (config.defaultCaPolicy == "Enabled" ==>
          && w.source.Some? && w.source.value.bundle.Some? && w.package.Some?
          && w.package.value.package.name == "cert-manager-package-openshift"
          && w.package.value.package.bundle == w.source.value.bundle.value
          && w.package.value.package.version == w.source.value.resourceVersion
          && MetadataInForce(config, op, PackageKey, w.package.value.labels, w.package.value.annotations))
    && w.account.Some? && w.account.value.automount == op.automount
    && MetadataInForce(config, op, AccountKey, w.account.value.labels, w.account.value.annotations)
    && (forall s: Static :: IsManaged(config, s) ==>
                              && s in w.statics && w.statics[s].body == op.staticBody(config, s)
                              && MetadataInForce(config, op, StaticKey(s), w.statics[s].labels, w.statics[s].annotations))
    && w.observed.image == op.image
    && w.observed.trustNamespace == (if config.trustNamespace != "" then config.trustNamespace else "cert-manager")
    && w.observed.secretTargets == config.secretTargetsPolicy && w.observed.defaultCa == config.defaultCaPolicy
    && w.observed.filterExpired == config.filterExpired
  }

  /**
   The live deployment runs the configured image, flags, TLS profile and CA package. Its pod
   template carries the UID of the live account, the hash of the present bundle and exactly
   the managed labels, and sets no cipher suites when TLS 1.3 is honoured.
   */
  ghost predicate DeploymentInForce(w: World, config: Config, op: Operator) {
    && w.deployment.Some? && w.account.Some?
    && OperandAsConfigured(w.deployment.value, config, op.image, op.lib, HonoredBy(op.lib, w.fetched))
    && var template := w.deployment.value.templateAnnotations;
    && (w.account.value.uid != "" ==>
          && "operator.openshift.io/trust-manager-service-account-uid" in template
          && template["operator.openshift.io/trust-manager-service-account-uid"] == w.account.value.uid)
    && (config.defaultCaPolicy == "Enabled" && w.source.Some? && w.source.value.bundle.Some? ==>
          && "operator.openshift.io/default-ca-package-hash" in template
          && template["operator.openshift.io/default-ca-package-hash"] == op.hash(w.source.value.bundle.value))
    && LabelledFor(w.deployment.value.templateLabels, config, op.version, true)
    && MetadataInForce(config, op, DeploymentKey, w.deployment.value.labels, w.deployment.value.annotations)
    && (HonorsTls13(op.lib, w.fetched) ==> NoCipherSuites(w.deployment.value.containers))
  }

  ghost predicate InForce(w: World, config: Config, op: Operator) {
    DeploymentInForce(w, config, op) && ResourcesInForce(w, config, op)
  }

  lemma CurrentInForce(config: Config, ctx: Context, deployment: Option<Deployment>)
    requires DeploymentCurrent(config, ctx, deployment)
    ensures deployment.Some? && Stamped(deployment.value, config, ctx.hash, ctx.uid) && deployment.value.templateLabels == ctx.labels
    ensures OperandAsConfigured(deployment.value, config, ctx.image, ctx.lib, HonoredBy(ctx.lib, ctx.fetched))
    ensures HonorsTls13(ctx.lib, ctx.fetched) ==> NoCipherSuites(deployment.value.containers)
    ensures !EntriesModified(ctx.labels, deployment.value.labels)
    ensures !EntriesModified(ctx.manifest.annotations + config.annotations, deployment.value.annotations)
  {
    hide Desired, Stamped, NoCipherSuites, HonorsTls13, OperandAsConfigured, HonoredBy, EntriesModified, ContainersModified;
    var desired := Desired(config, ctx).value;
    assert deployment.value.templateLabels == desired.templateLabels;
    assert !EntriesModified(desired.labels, deployment.value.labels) && !EntriesModified(desired.annotations, deployment.value.annotations);
    DesiredMetadata(config, ctx);
    hide DeploymentModified;
    DesiredTemplateLabels(config, ctx);
    DesiredStamped(config, ctx);
    UnmodifiedStamped(desired, deployment.value, config, ctx.hash, ctx.uid);
    DesiredAsConfigured(config, ctx);
    UnmodifiedAsConfigured(desired, deployment.value, config, ctx.image, ctx.lib, HonoredBy(ctx.lib, ctx.fetched));
    if HonorsTls13(ctx.lib, ctx.fetched) {
      DesiredHasNoCiphers(config, ctx);
      UnmodifiedHasNoCiphers(desired, deployment.value);
    }
  }

  lemma ConvergedDeploymentInForce(w: World, config: Config, op: Operator)
    requires ConvergedButPackage(w, config, op)
    ensures DeploymentInForce(w, config, op)
  {
    hide NoCipherSuites, HonorsTls13, DeploymentCurrent, ManagedLabels, OperandAsConfigured, HonoredBy, LabelledFor, EntriesModified, MetadataInForce;
    CurrentInForce(config, ContextFor(config, op, w.source, w.fetched, w.account.value.uid), w.deployment);
    ManagedLabelsAre(config, op, DeploymentKey);
    UndriftedInForce(config, op, DeploymentKey, w.deployment.value.labels, w.deployment.value.annotations);
  }

  lemma ConvergedResourcesInForce(w: World, config: Config, op: Operator)
    requires Converged(w, config, op)
    ensures ResourcesInForce(w, config, op)
  {
    hide MetadataDrifted, MetadataInForce, DeploymentCurrent;
    if w.package.Some? {
      UndriftedInForce(config, op, PackageKey, w.package.value.labels, w.package.value.annotations);
    }
    UndriftedInForce(config, op, AccountKey, w.account.value.labels, w.account.value.annotations);
    forall s: Static | IsManaged(config, s)
      ensures StaticCurrent(config, op, w.statics, s) && MetadataInForce(config, op, StaticKey(s), w.statics[s].labels, w.statics[s].annotations)
    {
      EveryStaticIsListed(config, s);
      UndriftedInForce(config, op, StaticKey(s), w.statics[s].labels, w.statics[s].annotations);
    }
  }

  /** The lists of a pass leave none out. */
  lemma EveryStaticIsListed(config: Config, s: Static)
    requires IsManaged(config, s)
    ensures s in BeforeClusterView(config) || s == ClusterViewRole || s in AFTER_CLUSTER_VIEW || s == WebhookConfiguration
  {
    var before := BeforeClusterView(config);
    assert before[0] in before && before[1] in before && before[2] in before && before[3] in before && before[4] in before && before[5] in before;
    var after := AFTER_CLUSTER_VIEW;
    assert after[0] in after && after[1] in after && after[2] in after && after[3] in after;
  }

  lemma ConvergedInForce(w: World, config: Config, op: Operator)
    requires Converged(w, config, op)
    ensures InForce(w, config, op)
  {
    hide DeploymentInForce, ResourcesInForce, ConvergedButPackage, PackageCurrent;
    ConvergedDeploymentInForce(w, config, op);
    ConvergedResourcesInForce(w, config, op);
  }

  // ----- Edits by others that do not matter -----

  ghost predicate MetadataAlike(config: Config, op: Operator, key: Key, labels: StringMap, annotations: StringMap, otherLabels: StringMap, otherAnnotations: StringMap) {
    && AgreeOn(ManagedLabels(config, op, key).Keys, labels, otherLabels)
    && AgreeOn(ManagedAnnotations(config, op, key).Keys, annotations, otherAnnotations)
  }

  lemma AlikeDrift(config: Config, op: Operator, key: Key, labels: StringMap, annotations: StringMap, otherLabels: StringMap, otherAnnotations: StringMap)
    requires MetadataAlike(config, op, key, labels, annotations, otherLabels, otherAnnotations)
    ensures MetadataDrifted(config, op, key, labels, annotations) <==> MetadataDrifted(config, op, key, otherLabels, otherAnnotations)
  {
    hide ManagedLabels, ManagedAnnotations;
    ForeignEntriesIgnored(ManagedLabels(config, op, key), labels, otherLabels);
    ForeignEntriesIgnored(ManagedAnnotations(config, op, key), annotations, otherAnnotations);
  }

  ghost predicate PackagesAlike(config: Config, op: Operator, a: Option<PackageConfigMap>, b: Option<PackageConfigMap>) {
    && a.Some? == b.Some?
    && (a.Some? ==> && b.value.package == a.value.package
                    && MetadataAlike(config, op, PackageKey, a.value.labels, a.value.annotations, b.value.labels, b.value.annotations))
  }

  ghost predicate AccountsAlike(config: Config, op: Operator, a: Option<ServiceAccount>, b: Option<ServiceAccount>) {
    && a.Some? == b.Some?
    && (a.Some? ==> && b.value.uid == a.value.uid && b.value.automount == a.value.automount
                    && MetadataAlike(config, op, AccountKey, a.value.labels, a.value.annotations, b.value.labels, b.value.annotations))
  }

  ghost predicate StaticAlike(config: Config, op: Operator, a: map<Static, Resource>, b: map<Static, Resource>, s: Static) {
    && (s in a <==> s in b)
    && (s in a && s in b ==>
          && b[s].body == a[s].body
          && MetadataAlike(config, op, StaticKey(s), a[s].labels, a[s].annotations, b[s].labels, b[s].annotations))
  }

  ghost predicate ListAlike(config: Config, op: Operator, a: map<Static, Resource>, b: map<Static, Resource>, list: seq<Static>) {
    forall i :: 0 <= i < |list| ==> StaticAlike(config, op, a, b, list[i])
  }

  ghost predicate StaticsAlike(config: Config, op: Operator, a: map<Static, Resource>, b: map<Static, Resource>) {
    && ListAlike(config, op, a, b, BeforeClusterView(config)) && StaticAlike(config, op, a, b, ClusterViewRole)
    && ListAlike(config, op, a, b, AFTER_CLUSTER_VIEW) && StaticAlike(config, op, a, b, WebhookConfiguration)
  }

  ghost predicate LiveDeploymentsAlike(config: Config, op: Operator, a: Option<Deployment>, b: Option<Deployment>) {
    && a.Some? == b.Some?
    && (a.Some? ==> DeploymentsAlike(ManagedLabels(config, op, DeploymentKey).Keys, ManagedAnnotations(config, op, DeploymentKey).Keys, a.value, b.value))
  }

  /**
   An edit that touches only labels and annotations the controller does not manage on that
   resource, resources that are not the controller's, and namespaces; the injected ConfigMap
   may get a new resource version.
   */
  ghost predicate Unobtrusive(a: World, b: World, config: Config, op: Operator) {
    && b.source.Some? == a.source.Some? && (a.source.Some? ==> b.source.value.bundle == a.source.value.bundle)
    && b.fetched == a.fetched && b.observed == a.observed
    && PackagesAlike(config, op, a.package, b.package) && AccountsAlike(config, op, a.account, b.account)
    && StaticsAlike(config, op, a.statics, b.statics) && LiveDeploymentsAlike(config, op, a.deployment, b.deployment)
  }

  /** The same, with the injected ConfigMap as it was. */
  ghost predicate ForeignOnly(a: World, b: World, config: Config, op: Operator) {
    Unobtrusive(a, b, config, op) && b.source == a.source
  }

  lemma AccountsAlikeCurrent(config: Config, op: Operator, a: Option<ServiceAccount>, b: Option<ServiceAccount>)
    requires AccountsAlike(config, op, a, b)
    ensures AccountCurrent(config, op, a) <==> AccountCurrent(config, op, b)
  {
    hide MetadataDrifted, MetadataAlike;
    if a.Some? {
      AlikeDrift(config, op, AccountKey, a.value.labels, a.value.annotations, b.value.labels, b.value.annotations);
    }
  }

  lemma PackagesAlikeCurrent(config: Config, op: Operator, source: Option<CaSource>, a: Option<PackageConfigMap>, b: Option<PackageConfigMap>)
    requires PackagesAlike(config, op, a, b)
    ensures PackageCurrent(config, op, source, a) <==> PackageCurrent(config, op, source, b)
  {
    hide MetadataDrifted, MetadataAlike;
    if a.Some? {
      AlikeDrift(config, op, PackageKey, a.value.labels, a.value.annotations, b.value.labels, b.value.annotations);
    }
  }

  lemma StaticAlikeCurrent(config: Config, op: Operator, a: map<Static, Resource>, b: map<Static, Resource>, s: Static)
    requires StaticAlike(config, op, a, b, s)
    ensures StaticCurrent(config, op, a, s) <==> StaticCurrent(config, op, b, s)
  {
    hide MetadataDrifted, MetadataAlike;
    if s in a {
      AlikeDrift(config, op, StaticKey(s), a[s].labels, a[s].annotations, b[s].labels, b[s].annotations);
    }
  }

  lemma ListAlikeCurrent(config: Config, op: Operator, a: map<Static, Resource>, b: map<Static, Resource>, list: seq<Static>)
    requires ListAlike(config, op, a, b, list)
    ensures ListCurrent(config, op, a, list) <==> ListCurrent(config, op, b, list)
  {
    hide StaticAlike, StaticCurrent;
    forall i | 0 <= i < |list|
      ensures StaticCurrent(config, op, a, list[i]) <==> StaticCurrent(config, op, b, list[i])
    {
      StaticAlikeCurrent(config, op, a, b, list[i]);
    }
  }

  lemma StaticsAlikeCurrent(config: Config, op: Operator, a: map<Static, Resource>, b: map<Static, Resource>)
    requires StaticsAlike(config, op, a, b)
    ensures StaticsCurrent(config, op, a) <==> StaticsCurrent(config, op, b)
    ensures StaticCurrent(config, op, a, WebhookConfiguration) <==> StaticCurrent(config, op, b, WebhookConfiguration)
  {
    hide StaticAlike, StaticCurrent, ListAlike, ListCurrent;
    ListAlikeCurrent(config, op, a, b, BeforeClusterView(config));
    StaticAlikeCurrent(config, op, a, b, ClusterViewRole);
    ListAlikeCurrent(config, op, a, b, AFTER_CLUSTER_VIEW);
    StaticAlikeCurrent(config, op, a, b, WebhookConfiguration);
  }

  lemma DeploymentsAlikeCurrent(config: Config, op: Operator, ctx: Context, a: Option<Deployment>, b: Option<Deployment>)
    requires LiveDeploymentsAlike(config, op, a, b) && ctx.manifest == op.manifest && ctx.labels == ManagedLabels(config, op, DeploymentKey)
    ensures DeploymentCurrent(config, ctx, a) <==> DeploymentCurrent(config, ctx, b)
  {
    hide Desired, DeploymentModified, DeploymentsAlike;
    if a.Some? && Desired(config, ctx).Ok? {
      DesiredMetadata(config, ctx);
      ForeignMetadataIgnored(Desired(config, ctx).value, a.value, b.value);
    }
  }

  /** An unobtrusive edit neither makes nor removes work, except for the package when the source was rewritten. */
  lemma UnobtrusiveHarmless(a: World, b: World, config: Config, op: Operator)
    requires Unobtrusive(a, b, config, op)
    ensures ConvergedButPackage(a, config, op) <==> ConvergedButPackage(b, config, op)
    ensures ForeignOnly(a, b, config, op) ==> (Converged(a, config, op) <==> Converged(b, config, op))
  {
    hide MetadataDrifted, PackageCurrent, StaticCurrent, StaticsCurrent, DeploymentCurrent, StaticsAlike, LiveDeploymentsAlike, PackagesAlike, ManagedLabels;
    AccountsAlikeCurrent(config, op, a.account, b.account);
    PackagesAlikeCurrent(config, op, a.source, a.package, b.package);
    StaticsAlikeCurrent(config, op, a.statics, b.statics);
    if a.account.Some? {
      DeploymentsAlikeCurrent(config, op, ContextFor(config, op, a.source, a.fetched, a.account.value.uid), a.deployment, b.deployment);
    }
  }

  /** A new resource version puts the package, and only the package, behind. */
  lemma RewrittenSourceBehind(w: World, config: Config, op: Operator, resourceVersion: string)
    requires Converged(w, config, op) && DefaultCaEnabled(config) && resourceVersion != w.source.value.resourceVersion
    ensures !PackageCurrent(config, op, Some(w.source.value.(resourceVersion := resourceVersion)), w.package)
  {
  }

  // ----- Runs -----

  /** A pass against a healthy API server meets no failure. */
  datatype Action = Pass(config: Config, healthy: bool) | Edit(to: World)

  /** `sent` and `observedWrites` are what the step sent; `ok` is the result of a pass. */
  datatype Entry = Entry(action: Action, ok: bool, sent: seq<Patch>, observedWrites: nat, before: World, after: World)

  /** What a single pass guarantees, from whatever state it starts in and wherever it stops. */
  ghost predicate PassKeeps(e: Entry, config: Config, op: Operator) {
    && e.after.source == e.before.source && e.after.fetched == e.before.fetched && e.after.namespaces == e.before.namespaces
    && (e.before.account.Some? ==> e.after.account.Some? && e.after.account.value.uid == e.before.account.value.uid)
    && (e.ok ==> Converged(e.after, config, op))
    && (Converged(e.before, config, op) ==> e.sent == [] && e.observedWrites == 0 && e.after == e.before)
    && (ConvergedButPackage(e.before, config, op) ==>
          && ConvergedButPackage(e.after, config, op) && (e.sent == [] || e.sent == [PatchFor(config, op, PackageKey)])
          && e.observedWrites == 0 && e.after.deployment == e.before.deployment)
    && (e.ok && !PackageCurrent(config, op, e.before.source, e.before.package) ==> PatchFor(config, op, PackageKey) in e.sent)
    && (forall i :: 0 <= i < |e.sent| ==> e.sent[i] == PatchFor(config, op, e.sent[i].key) && e.sent[i].key in PassOrder(config))
  }

  /** When a pass succeeds: exactly when it can, if the API server is healthy, and only when it can otherwise. */
  ghost predicate SucceedsWhenPossible(e: Entry, config: Config, healthy: bool, op: Operator) {
    (e.ok ==> Passable(e.before, config, op)) && (healthy && Passable(e.before, config, op) ==> e.ok)
  }

  ghost predicate Legal(e: Entry, op: Operator) {
    match e.action
    case Pass(config, healthy) => PassKeeps(e, config, op) && SucceedsWhenPossible(e, config, healthy, op)
    case Edit(to) => e.after == to && e.sent == [] && e.observedWrites == 0
  }

  /** Every entry is legal and starts where the one before it ended. */
  ghost predicate LegalLog(log: seq<Entry>, op: Operator) {
    && (forall i :: 0 <= i < |log| ==> Legal(log[i], op))
    && (forall i :: 0 < i < |log| ==> log[i].before == log[i - 1].after)
  }

  function AllSent(log: seq<Entry>): seq<Patch> {
    if log == [] then [] else AllSent(log[..|log| - 1]) + log[|log| - 1].sent
  }

  function AllObservedWrites(log: seq<Entry>): nat {
    if log == [] then 0 else AllObservedWrites(log[..|log| - 1]) + log[|log| - 1].observedWrites
  }

  predicate IsPass(action: Action, config: Config) {
    action.Pass? && action.config == config
  }

  ghost predicate Succeeded(e: Entry, config: Config) {
    IsPass(e.action, config) && e.ok
  }

  /** Between two entries there are only passes, successful or not, and edits of foreign metadata. */
  ghost predicate Undisturbed(log: seq<Entry>, i: nat, j: nat, config: Config, op: Operator) {
    forall k :: i < k < j < |log| ==> IsPass(log[k].action, config) || (log[k].action.Edit? && ForeignOnly(log[k].before, log[k].after, config, op))
  }

  /** The same, where the injected ConfigMap may be rewritten with the same bundle. */
  ghost predicate BundleKept(log: seq<Entry>, i: nat, j: nat, config: Config, op: Operator) {
    forall k :: i < k < j < |log| ==> IsPass(log[k].action, config) || (log[k].action.Edit? && Unobtrusive(log[k].before, log[k].after, config, op))
  }

  /** What a legal pass means for convergence. */
  lemma LegalPass(e: Entry, config: Config, op: Operator)
    requires Legal(e, op) && IsPass(e.action, config)
    ensures e.ok || Converged(e.before, config, op) ==> Converged(e.after, config, op)
    ensures e.ok || ConvergedButPackage(e.before, config, op) ==> ConvergedButPackage(e.after, config, op)
  {
    hide ConvergedButPackage, PackageCurrent, Passable;
  }

  lemma {:induction false} StaysConverged(log: seq<Entry>, i: nat, j: nat, config: Config, op: Operator)
    requires i < j < |log|
    ensures LegalLog(log, op) && Succeeded(log[i], config) && Undisturbed(log, i, j, config, op) ==> Converged(log[j].before, config, op)
    decreases j
  {
    hide Converged, ConvergedButPackage, ForeignOnly, Legal;
    if LegalLog(log, op) && Succeeded(log[i], config) && Undisturbed(log, i, j, config, op) {
      var last := log[j - 1];
      assert last.after == log[j].before && Legal(last, op);
      if i < j - 1 {
        StaysConverged(log, i, j - 1, config, op);
      }
      if IsPass(last.action, config) {
        LegalPass(last, config, op);
      } else {
        ForeignOnlyHarmless(last.before, last.after, config, op);
      }
    }
  }

  lemma ForeignOnlyHarmless(a: World, b: World, config: Config, op: Operator)
    requires ForeignOnly(a, b, config, op)
    ensures Converged(a, config, op) <==> Converged(b, config, op)
  {
    UnobtrusiveHarmless(a, b, config, op);
  }

  lemma {:induction false} StaysConvergedButPackage(log: seq<Entry>, i: nat, j: nat, config: Config, op: Operator)
    requires i < j < |log|
    ensures LegalLog(log, op) && Succeeded(log[i], config) && BundleKept(log, i, j, config, op) ==> ConvergedButPackage(log[j].before, config, op)
    decreases j
  {
    hide ConvergedButPackage, Converged, Unobtrusive, Legal;
    if LegalLog(log, op) && Succeeded(log[i], config) && BundleKept(log, i, j, config, op) {
      var last := log[j - 1];
      assert last.after == log[j].before && Legal(last, op);
      if i < j - 1 {
        StaysConvergedButPackage(log, i, j - 1, config, op);
      }
      if IsPass(last.action, config) {
        LegalPass(last, config, op);
      } else {
        UnobtrusiveHarmless(last.before, last.after, config, op);
      }
    }
  }

  /** A pass after a successful one sends nothing, whatever failed and whatever foreign metadata came in between. */
  ghost predicate SilentOnceConverged(log: seq<Entry>, op: Operator) {
    forall i, j, config ::
      0 <= i < j < |log| && Succeeded(log[i], config) && IsPass(log[j].action, config) && Undisturbed(log, i, j, config, op)
      ==> log[j].sent == [] && log[j].observedWrites == 0 && log[j].after == log[j].before
  }

  /** While the bundle stays, rewriting its ConfigMap leads to applies of the package alone, and rolls no pod. */
  ghost predicate OnlyPackageFollows(log: seq<Entry>, op: Operator) {
    forall i, j, config ::
      0 <= i < j < |log| && Succeeded(log[i], config) && IsPass(log[j].action, config) && BundleKept(log, i, j, config, op)
      ==> && log[j].observedWrites == 0 && log[j].after.deployment == log[j].before.deployment
          && (log[j].sent == [] || log[j].sent == [PatchFor(config, op, PackageKey)])
          && (log[j].ok ==> (log[j].sent == [] <==> PackageCurrent(config, op, log[j].before.source, log[j].before.package)))
  }

  /** After every successful pass the pod template is that of the account, bundle and TLS profile of the moment. */
  ghost predicate InForceAfterSuccess(log: seq<Entry>, op: Operator) {
    forall i, config :: 0 <= i < |log| && Succeeded(log[i], config) ==> Converged(log[i].after, config, op) && InForce(log[i].after, config, op)
  }

  /** Against a healthy API server a pass succeeds exactly when it can, whatever happened before it. */
  ghost predicate RecoversWhenPossible(log: seq<Entry>, op: Operator) {
    forall i, config :: 0 <= i < |log| && log[i].action == Pass(config, true) ==> (log[i].ok <==> Passable(log[i].before, config, op))
  }

  /**
   Everything sent carries the labels and annotations of its resource. Those built from the
   cluster-view role on carry its label, too; others do only if the user sets it.
   */
  ghost predicate MetadataSent(log: seq<Entry>, op: Operator) {
    forall i, j, config :: 0 <= i < |log| && 0 <= j < |log[i].sent| && IsPass(log[i].action, config) ==>
                             var patch := log[i].sent[j];
                             && LabelledFor(patch.labels, config, op.version, Aggregated(patch.key)) && AnnotatedFor(patch.annotations, config, op, patch.key)
                             && (AGGREGATE_LABEL in patch.labels <==> Aggregated(patch.key) || AGGREGATE_LABEL in config.labels)
  }

  lemma PatchMetadata(config: Config, op: Operator, key: Key)
    ensures var patch := PatchFor(config, op, key);
            && LabelledFor(patch.labels, config, op.version, Aggregated(key)) && AnnotatedFor(patch.annotations, config, op, key)
            && (AGGREGATE_LABEL in patch.labels <==> Aggregated(key) || AGGREGATE_LABEL in config.labels)
  {
    hide DefaultLabels, LabelledFor, AnnotatedFor;
    AggregateIsNoDefault(op);
    ManagedLabelsAre(config, op, key);
    ManagedAnnotationsAre(config, op, key);
  }

  lemma LegalMetadata(log: seq<Entry>, op: Operator)
    requires LegalLog(log, op)
    ensures MetadataSent(log, op) && RecoversWhenPossible(log, op)
  {
    hide ConvergedButPackage, Converged, PackageCurrent, Passable, PatchFor, LabelledFor, AnnotatedFor, PassOrder;
    forall i, j, config | 0 <= i < |log| && 0 <= j < |log[i].sent| && IsPass(log[i].action, config)
      ensures var patch := log[i].sent[j];
              && LabelledFor(patch.labels, config, op.version, Aggregated(patch.key)) && AnnotatedFor(patch.annotations, config, op, patch.key)
              && (AGGREGATE_LABEL in patch.labels <==> Aggregated(patch.key) || AGGREGATE_LABEL in config.labels)
    {
      assert Legal(log[i], op);
      PatchMetadata(config, op, log[i].sent[j].key);
    }
    assert forall i :: 0 <= i < |log| ==> Legal(log[i], op);
  }

  lemma LegalRuns(log: seq<Entry>, op: Operator)
    requires LegalLog(log, op)
    ensures SilentOnceConverged(log, op) && OnlyPackageFollows(log, op) && InForceAfterSuccess(log, op)
  {
    hide ConvergedButPackage, PackageCurrent, InForce, Undisturbed, BundleKept;
    forall i, j, config | 0 <= i < j < |log| && Succeeded(log[i], config) && IsPass(log[j].action, config)
      ensures Undisturbed(log, i, j, config, op) ==>
                log[j].sent == [] && log[j].observedWrites == 0 && log[j].after == log[j].before
      ensures BundleKept(log, i, j, config, op) ==>
                && log[j].observedWrites == 0 && log[j].after.deployment == log[j].before.deployment
                && (log[j].sent == [] || log[j].sent == [PatchFor(config, op, PackageKey)])
                && (log[j].ok ==> (log[j].sent == [] <==> PackageCurrent(config, op, log[j].before.source, log[j].before.package)))
    {
      assert Legal(log[j], op);
      if Undisturbed(log, i, j, config, op) {
        StaysConverged(log, i, j, config, op);
      }
      if BundleKept(log, i, j, config, op) {
        StaysConvergedButPackage(log, i, j, config, op);
      }
    }
    forall i, config | 0 <= i < |log| && Succeeded(log[i], config)
      ensures Converged(log[i].after, config, op) && InForce(log[i].after, config, op)
    {
      assert Legal(log[i], op);
      ConvergedInForce(log[i].after, config, op);
    }
  }

  /** The Go map of labels that all builders of a pass share by reference. */
  class LabelMap {
    var entries: StringMap

    constructor (entries: StringMap)
      ensures this.entries == entries
    {
      this.entries := entries;
    }
  }

  predicate BundleAvailable(source: Option<CaSource>) {
    source.Some? && source.value.bundle.Some? && source.value.bundle.value != ""
  }

  /** Every apply from position `start` on claims the metadata managed for its resource. */
  ghost predicate Genuine(patches: seq<Patch>, start: nat, config: Config, op: Operator) {
    forall i :: start <= i < |patches| ==> patches[i] == PatchFor(config, op, patches[i].key) && patches[i].key in PassOrder(config)
  }

  /** At most this one apply was sent. */
  ghost predicate AtMost(before: seq<Patch>, after: seq<Patch>, patch: Patch) {
    after == before || after == before + [patch]
  }

  lemma InOrder(config: Config, s: Static)
    requires s in BeforeClusterView(config) || s == ClusterViewRole || s in AFTER_CLUSTER_VIEW || s == WebhookConfiguration
    ensures StaticKey(s) in PassOrder(config)
    ensures PackageKey in PassOrder(config) && AccountKey in PassOrder(config) && DeploymentKey in PassOrder(config)
  {
    var order := PassOrder(config);
    assert order[0] == PackageKey && order[1] == AccountKey && order[13] == DeploymentKey && order[14] == StaticKey(WebhookConfiguration);
    assert order[2] == StaticKey(ClusterRole) && order[3] == StaticKey(ClusterRoleBinding);
    assert order[4] == StaticKey(TrustNamespaceRole(TrustNamespace(config))) && order[5] == StaticKey(TrustNamespaceRoleBinding(TrustNamespace(config)));
    assert order[6] == StaticKey(LeaderElectionRole) && order[7] == StaticKey(LeaderElectionRoleBinding) && order[8] == StaticKey(ClusterViewRole);
    assert order[9] == StaticKey(WebhookService) && order[10] == StaticKey(MetricsService);
    assert order[11] == StaticKey(Issuer) && order[12] == StaticKey(Certificate);
  }

  class Cluster {
    var source: Option<CaSource>
    var fetched: Tls.Fetched
    var namespaces: set<string>
    var package: Option<PackageConfigMap>
    var account: Option<ServiceAccount>
    var statics: map<Static, Resource>
    var deployment: Option<Deployment>
    var observed: Observed
    /** No call fails while this is set. */
    var healthy: bool
    /** Every apply and every write of the observed state that took effect. */
    ghost var patches: seq<Patch>
    ghost var observedWrites: nat
    ghost var log: seq<Entry>

    ghost function Now(): World
      reads this
    {
      World(source, fetched, namespaces, package, account, statics, deployment, observed)
    }

    /** The log accounts for everything that was sent, and leads to the present state. */
    ghost predicate Valid(op: Operator)
      reads this
    {
      && LegalLog(log, op) && (log != [] ==> log[|log| - 1].after == Now())
      && patches == AllSent(log) && observedWrites == AllObservedWrites(log)
    }

    constructor (w: World, op: Operator)
      ensures Valid(op) && Now() == w && log == []
    {
      source, fetched, namespaces, package := w.source, w.fetched, w.namespaces, w.package;
      account, statics, deployment, observed := w.account, w.statics, w.deployment, w.observed;
      healthy, patches, observedWrites, log := false, [], 0, [];
    }

    /** Reads the bundle, and applies the package ConfigMap when it is missing or drifted. */
    method CreateOrApplyPackage(config: Config, op: Operator, labels: LabelMap) returns (r: Result<string, string>)
      requires labels.entries == ManagedLabels(config, op, PackageKey)
      modifies this`package, this`patches
      ensures r.Ok? ==> PackageCurrent(config, op, source, package) && r.value == BundleHash(config, op, source)
      ensures old(PackageCurrent(config, op, source, package)) ==> package == old(package) && patches == old(patches)
      ensures AtMost(old(patches), patches, PatchFor(config, op, PackageKey))
      ensures r.Ok? && !old(PackageCurrent(config, op, source, package)) ==> patches == old(patches) + [PatchFor(config, op, PackageKey)]
      ensures r.Ok? ==> (DefaultCaEnabled(config) ==> BundleAvailable(source))
      ensures healthy && (DefaultCaEnabled(config) ==> BundleAvailable(source)) ==> r.Ok?
    {
      hide ManagedLabels;
      if !DefaultCaEnabled(config) {
        return Ok("");
      }
      var unreachable := Fault(healthy);
      if unreachable || !BundleAvailable(source) {
        return Err("CA bundle unavailable");
      }
      var desired := PackageConfigMap(labels.entries, config.annotations, DesiredPackage(source.value));
      var current := package.Some? && package.value.package == desired.package;
      if current {
        var labelsModified := ManagedEntriesModified(desired.labels, package.value.labels);
        var annotationsModified := ManagedEntriesModified(desired.annotations, package.value.annotations);
        current := !labelsModified && !annotationsModified;
      }
      if !current {
        var refused := Fault(healthy);
        if refused {
          return Err("apply failed");
        }
        ApplyPackage(desired);
        var unanswered := Fault(healthy);
        if unanswered {
          return Err("apply failed");
        }
      }
      return Ok(op.hash(source.value.bundle.value));
    }

    method ApplyPackage(desired: PackageConfigMap)
      modifies this`package, this`patches
      ensures patches == old(patches) + [Patch(PackageKey, desired.labels, desired.annotations)]
      ensures package.Some? && package.value.package == desired.package
      ensures package.value.labels == (if old(package).Some? then old(package).value.labels else map[]) + desired.labels
      ensures package.value.annotations == (if old(package).Some? then old(package).value.annotations else map[]) + desired.annotations
      ensures !EntriesModified(desired.labels, package.value.labels) && !EntriesModified(desired.annotations, package.value.annotations)
    {
      var labels, annotations := map[], map[];
      if package.Some? {
        labels, annotations := package.value.labels, package.value.annotations;
      }
      OverlaidUnmodified(desired.labels, labels);
      OverlaidUnmodified(desired.annotations, annotations);
      package := Some(desired.(labels := labels + desired.labels, annotations := annotations + desired.annotations));
      patches := patches + [Patch(PackageKey, desired.labels, desired.annotations)];
    }

    /** A missing account is created with a UID of the server's choice; an existing one keeps its UID. */
    method CreateOrApplyAccount(config: Config, op: Operator, labels: LabelMap) returns (r: Result<(), string>)
      requires labels.entries == ManagedLabels(config, op, AccountKey)
      modifies this`account, this`patches
      ensures r.Ok? ==> AccountCurrent(config, op, account)
      ensures old(AccountCurrent(config, op, account)) ==> account == old(account) && patches == old(patches)
      ensures AtMost(old(patches), patches, PatchFor(config, op, AccountKey))
      ensures r.Ok? && !old(AccountCurrent(config, op, account)) ==> patches == old(patches) + [PatchFor(config, op, AccountKey)]
      ensures old(account).Some? ==> account.Some? && account.value.uid == old(account).value.uid
      ensures healthy ==> r.Ok?
    {
      hide ManagedLabels;
      var unreachable := Fault(healthy);
      if unreachable {
        return Err("failed to check if serviceaccount exists");
      }
      if account.Some? && account.value.automount == op.automount {
        var labelsModified := ManagedEntriesModified(labels.entries, account.value.labels);
        var annotationsModified := ManagedEntriesModified(config.annotations, account.value.annotations);
        if !labelsModified && !annotationsModified {
          return Ok(());
        }
      }
      var refused := Fault(healthy);
      if refused {
        return Err("apply failed");
      }
      var uid: string := *;
      if account.Some? {
        OverlaidUnmodified(labels.entries, account.value.labels);
        OverlaidUnmodified(config.annotations, account.value.annotations);
        account := Some(ServiceAccount(account.value.uid, account.value.labels + labels.entries, account.value.annotations + config.annotations, op.automount));
      } else {
        account := Some(ServiceAccount(uid, labels.entries, config.annotations, op.automount));
      }
      patches := patches + [Patch(AccountKey, labels.entries, config.annotations)];
      var unanswered := Fault(healthy);
      return if unanswered then Err("apply failed") else Ok(());
    }

    /** The builder of the cluster-view role writes its label into the map it was handed. */
    method BuildStatic(config: Config, op: Operator, labels: LabelMap, s: Static) returns (desired: Resource)
      modifies labels
      ensures labels.entries == if s.ClusterViewRole? then old(labels.entries)[AGGREGATE_LABEL := "true"] else old(labels.entries)
      ensures desired == Resource(labels.entries, ManagedAnnotations(config, op, StaticKey(s)), op.staticBody(config, s))
    {
      var annotations := config.annotations;
      if s.ClusterViewRole? {
        labels.entries := labels.entries[AGGREGATE_LABEL := "true"];
      } else if s.WebhookConfiguration? {
        annotations := annotations[INJECT_ANNOTATION := "cert-manager/trust-manager-tls"];
      }
      return Resource(labels.entries, annotations, op.staticBody(config, s));
    }

    method CreateOrApplyStatic(config: Config, op: Operator, labels: LabelMap, s: Static) returns (r: Result<(), string>)
      requires ManagedLabels(config, op, StaticKey(s)) == if s.ClusterViewRole? then labels.entries[AGGREGATE_LABEL := "true"] else labels.entries
      modifies this`statics, this`patches, labels
      ensures labels.entries == ManagedLabels(config, op, StaticKey(s))
      ensures r.Ok? ==> StaticCurrent(config, op, statics, s)
      ensures forall t :: t != s ==> (t in statics <==> t in old(statics)) && (t in statics ==> statics[t] == old(statics)[t])
      ensures old(StaticCurrent(config, op, statics, s)) ==> statics == old(statics) && patches == old(patches)
      ensures AtMost(old(patches), patches, PatchFor(config, op, StaticKey(s)))
      ensures r.Ok? && !old(StaticCurrent(config, op, statics, s)) ==> patches == old(patches) + [PatchFor(config, op, StaticKey(s))]
      ensures healthy ==> r.Ok?
    {
      hide ManagedLabels, ManagedAnnotations;
      var desired := BuildStatic(config, op, labels, s);
      var unreachable := Fault(healthy);
      if unreachable {
        return Err("failed to check if resource exists");
      }
      if s in statics && statics[s].body == desired.body {
        var labelsModified := ManagedEntriesModified(desired.labels, statics[s].labels);
        var annotationsModified := ManagedEntriesModified(desired.annotations, statics[s].annotations);
        if !labelsModified && !annotationsModified {
          return Ok(());
        }
      }
      var refused := Fault(healthy);
      if refused {
        return Err("apply failed");
      }
      ApplyStatic(desired, s);
      var unanswered := Fault(healthy);
      return if unanswered then Err("apply failed") else Ok(());
    }

    method ApplyStatic(desired: Resource, s: Static)
      modifies this`statics, this`patches
      ensures patches == old(patches) + [Patch(StaticKey(s), desired.labels, desired.annotations)]
      ensures s in statics && statics[s].body == desired.body
      ensures statics[s].labels == (if s in old(statics) then old(statics)[s].labels else map[]) + desired.labels
      ensures statics[s].annotations == (if s in old(statics) then old(statics)[s].annotations else map[]) + desired.annotations
      ensures !EntriesModified(desired.labels, statics[s].labels) && !EntriesModified(desired.annotations, statics[s].annotations)
      ensures forall t :: t != s ==> (t in statics <==> t in old(statics)) && (t in statics ==> statics[t] == old(statics)[t])
    {
      var labels, annotations := map[], map[];
      if s in statics {
        labels, annotations := statics[s].labels, statics[s].annotations;
      }
      OverlaidUnmodified(desired.labels, labels);
      OverlaidUnmodified(desired.annotations, annotations);
      statics := statics[s := desired.(labels := labels + desired.labels, annotations := annotations + desired.annotations)];
      patches := patches + [Patch(StaticKey(s), desired.labels, desired.annotations)];
    }

    /** A run of static resources among which the shared labels do not change. */
    method CreateOrApplyList(config: Config, op: Operator, labels: LabelMap, list: seq<Static>) returns (r: Result<(), string>)
      requires forall i :: 0 <= i < |list| ==>
                             && !list[i].ClusterViewRole? && StaticKey(list[i]) in PassOrder(config)
                             && labels.entries == ManagedLabels(config, op, StaticKey(list[i]))
      modifies this`statics, this`patches, labels
      ensures labels.entries == old(labels.entries)
      ensures r.Ok? ==> ListCurrent(config, op, statics, list)
      ensures forall s :: old(StaticCurrent(config, op, statics, s)) ==> StaticCurrent(config, op, statics, s)
      ensures old(ListCurrent(config, op, statics, list)) ==> statics == old(statics) && patches == old(patches)
      ensures old(patches) <= patches && Genuine(patches, |old(patches)|, config, op)
      ensures healthy ==> r.Ok?
    {
      hide MetadataDrifted, ManagedLabels, PassOrder;
      for i := 0 to |list|
        invariant labels.entries == old(labels.entries)
        invariant forall j :: 0 <= j < i ==> StaticCurrent(config, op, statics, list[j])
        invariant forall s :: old(StaticCurrent(config, op, statics, s)) ==> StaticCurrent(config, op, statics, s)
        invariant old(ListCurrent(config, op, statics, list)) ==> statics == old(statics) && patches == old(patches)
        invariant old(patches) <= patches && Genuine(patches, |old(patches)|, config, op)
      {
        var applied := CreateOrApplyStatic(config, op, labels, list[i]);
        if applied.Err? {
          return applied;
        }
      }
      return Ok(());
    }

    /** The static resources up to the certificate; on the way the shared labels gain the cluster-view role's. */
    method CreateOrApplyStatics(config: Config, op: Operator, labels: LabelMap) returns (r: Result<(), string>)
      requires labels.entries == ResourceLabels(config, op)
      modifies this`statics, this`patches, labels
      ensures r.Ok? ==> labels.entries == ResourceLabels(config, op)[AGGREGATE_LABEL := "true"]
      ensures r.Ok? ==> StaticsCurrent(config, op, statics)
      ensures old(StaticsCurrent(config, op, statics)) ==> statics == old(statics) && patches == old(patches)
      ensures forall s :: old(StaticCurrent(config, op, statics, s)) ==> StaticCurrent(config, op, statics, s)
      ensures old(patches) <= patches && Genuine(patches, |old(patches)|, config, op)
      ensures healthy ==> r.Ok?
    {
      hide StaticCurrent, PassOrder, ResourceLabels;
      forall s: Static | s in BeforeClusterView(config) || s == ClusterViewRole || s in AFTER_CLUSTER_VIEW
        ensures StaticKey(s) in PassOrder(config)
      {
        InOrder(config, s);
      }
      r := CreateOrApplyList(config, op, labels, BeforeClusterView(config));
      if r.Err? {
        return;
      }
      r := CreateOrApplyClusterView(config, op, labels);
      if r.Err? {
        return;
      }
      r := CreateOrApplyList(config, op, labels, AFTER_CLUSTER_VIEW);
    }

    method CreateOrApplyClusterView(config: Config, op: Operator, labels: LabelMap) returns (r: Result<(), string>)
      requires labels.entries == ResourceLabels(config, op)
      modifies this`statics, this`patches, labels
      ensures labels.entries == ResourceLabels(config, op)[AGGREGATE_LABEL := "true"]
      ensures r.Ok? ==> StaticCurrent(config, op, statics, ClusterViewRole)
      ensures old(StaticCurrent(config, op, statics, ClusterViewRole)) ==> statics == old(statics) && patches == old(patches)
      ensures forall s :: old(StaticCurrent(config, op, statics, s)) ==> StaticCurrent(config, op, statics, s)
      ensures old(patches) <= patches && Genuine(patches, |old(patches)|, config, op)
      ensures healthy ==> r.Ok?
    {
      hide PassOrder, MetadataDrifted, ResourceLabels;
      InOrder(config, ClusterViewRole);
      r := CreateOrApplyStatic(config, op, labels, ClusterViewRole);
    }

    method CreateOrApplyWebhookConfiguration(config: Config, op: Operator, labels: LabelMap) returns (r: Result<(), string>)
      requires labels.entries == ResourceLabels(config, op)[AGGREGATE_LABEL := "true"]
      modifies this`statics, this`patches, labels
      ensures r.Ok? ==> StaticCurrent(config, op, statics, WebhookConfiguration)
      ensures old(StaticCurrent(config, op, statics, WebhookConfiguration)) ==> statics == old(statics) && patches == old(patches)
      ensures forall s :: old(StaticCurrent(config, op, statics, s)) ==> StaticCurrent(config, op, statics, s)
      ensures old(patches) <= patches && Genuine(patches, |old(patches)|, config, op)
      ensures healthy ==> r.Ok?
    {
      hide PassOrder, MetadataDrifted, ResourceLabels, ManagedAnnotations;
      InOrder(config, WebhookConfiguration);
      r := CreateOrApplyStatic(config, op, labels, WebhookConfiguration);
    }

    method CreateOrApplyDeployment(config: Config, op: Operator, labels: LabelMap, hash: string) returns (r: Result<(), string>)
      requires hash == BundleHash(config, op, source) && labels.entries == ManagedLabels(config, op, DeploymentKey)
      modifies this`deployment, this`patches
      ensures r.Ok? ==> account.Some? && DeploymentCurrent(config, ContextFor(config, op, source, fetched, account.value.uid), deployment)
      ensures account.Some? && old(DeploymentCurrent(config, ContextFor(config, op, source, fetched, account.value.uid), deployment)) ==>
                deployment == old(deployment) && patches == old(patches)
      ensures AtMost(old(patches), patches, PatchFor(config, op, DeploymentKey))
      ensures r.Ok? && account.Some? && !old(DeploymentCurrent(config, ContextFor(config, op, source, fetched, account.value.uid), deployment)) ==>
                patches == old(patches) + [PatchFor(config, op, DeploymentKey)]
      ensures r.Ok? ==> Buildable(config, op.manifest, op.image, op.lib, fetched)
      ensures healthy && account.Some? && Buildable(config, op.manifest, op.image, op.lib, fetched) ==> r.Ok?
    {
      hide Desired, DeploymentModified, Applied, ManagedLabels, Buildable;
      var unreachable := Fault(healthy);
      if unreachable || account.None? {
        return Err("failed to get serviceaccount");
      }
      var ctx := Context(op.manifest, labels.entries, op.image, op.lib, fetched, hash, account.value.uid);
      DesiredExactlyWhenBuildable(config, ctx);
      var built := GetDeploymentObject(config, ctx);
      if built.Err? {
        return Err(built.error);
      }
      var desired := built.value;
      DesiredMetadata(config, ctx);
      if deployment.Some? {
        var modified := CheckDeploymentModified(desired, deployment.value);
        if !modified {
          return Ok(());
        }
      }
      var refused := Fault(healthy);
      if refused {
        return Err("apply failed");
      }
      AppliedUnmodified(desired, deployment);
      deployment := Some(Applied(desired, deployment));
      patches := patches + [Patch(DeploymentKey, desired.labels, desired.annotations)];
      var unanswered := Fault(healthy);
      return if unanswered then Err("apply failed") else Ok(());
    }

    method UpdateStatusObservedState(config: Config, op: Operator) returns (r: Result<(), string>)
      modifies this`observed, this`observedWrites
      ensures r.Ok? ==> observed == DesiredObserved(config, op)
      ensures observed == old(observed) || observed == DesiredObserved(config, op)
      ensures observedWrites == old(observedWrites) + if observed == old(observed) then 0 else 1
      ensures healthy ==> r.Ok?
    {
      var status, changed := observed, false;
      if status.image != op.image {
        status, changed := status.(image := op.image), true;
      }
      if status.trustNamespace != TrustNamespace(config) {
        status, changed := status.(trustNamespace := TrustNamespace(config)), true;
      }
      if status.secretTargets != config.secretTargetsPolicy {
        status, changed := status.(secretTargets := config.secretTargetsPolicy), true;
      }
      if status.defaultCa != config.defaultCaPolicy {
        status, changed := status.(defaultCa := config.defaultCaPolicy), true;
      }
      if status.filterExpired != config.filterExpired {
        status, changed := status.(filterExpired := config.filterExpired), true;
      }
      if !changed {
        return Ok(());
      }
      var refused := Fault(healthy);
      if refused {
        return Err("status update failed");
      }
      observed, observedWrites := status, observedWrites + 1;
      var unanswered := Fault(healthy);
      return if unanswered then Err("status update failed") else Ok(());
    }

    /** The steps of a pass up to the certificate. */
    method ReconcilePrerequisites(config: Config, op: Operator, labels: LabelMap) returns (r: Result<string, string>)
      requires labels.entries == ResourceLabels(config, op)
      modifies this`package, this`account, this`statics, this`patches, labels
      ensures r.Ok? ==> labels.entries == ResourceLabels(config, op)[AGGREGATE_LABEL := "true"]
      ensures r.Ok? ==> && PackageCurrent(config, op, source, package) && AccountCurrent(config, op, account)
                        && StaticsCurrent(config, op, statics) && r.value == BundleHash(config, op, source)
      ensures forall s :: old(StaticCurrent(config, op, statics, s)) ==> StaticCurrent(config, op, statics, s)
      ensures old(account).Some? ==> account.Some? && account.value.uid == old(account).value.uid
      ensures old(AccountCurrent(config, op, account)) ==> account == old(account)
      ensures old(StaticsCurrent(config, op, statics)) ==> statics == old(statics)
      ensures old(PackageCurrent(config, op, source, package)) ==> package == old(package)
      ensures old(patches) <= patches && Genuine(patches, |old(patches)|, config, op)
      ensures r.Ok? && !old(PackageCurrent(config, op, source, package)) ==> old(patches) + [PatchFor(config, op, PackageKey)] <= patches
      ensures old(AccountCurrent(config, op, account) && StaticsCurrent(config, op, statics)) ==>
                && AtMost(old(patches), patches, PatchFor(config, op, PackageKey))
                && (old(PackageCurrent(config, op, source, package)) ==> patches == old(patches))
      ensures r.Ok? ==> (DefaultCaEnabled(config) ==> BundleAvailable(source))
      ensures healthy && (DefaultCaEnabled(config) ==> BundleAvailable(source)) ==> r.Ok?
    {
      hide PackageCurrent, AccountCurrent, StaticCurrent, StaticsCurrent, BundleHash, ResourceLabels, PassOrder, ManagedAnnotations;
      InOrder(config, ClusterViewRole);
      var hash := CreateOrApplyPackage(config, op, labels);
      if hash.Err? {
        return hash;
      }
      var account := CreateOrApplyAccount(config, op, labels);
      if account.Err? {
        return Err(account.error);
      }
      var statics := CreateOrApplyStatics(config, op, labels);
      if statics.Err? {
        return Err(statics.error);
      }
      return hash;
    }

    /** The deployment, the webhook configuration and the status. */
    method ReconcileOperand(config: Config, op: Operator, labels: LabelMap, hash: string) returns (r: Result<(), string>)
      requires hash == BundleHash(config, op, source) && labels.entries == ResourceLabels(config, op)[AGGREGATE_LABEL := "true"]
      requires account.Some?
      modifies this`statics, this`deployment, this`observed, this`patches, this`observedWrites, labels
      ensures r.Ok? ==> && DeploymentCurrent(config, ContextFor(config, op, source, fetched, account.value.uid), deployment)
                        && StaticCurrent(config, op, statics, WebhookConfiguration) && observed == DesiredObserved(config, op)
      ensures forall s :: old(StaticCurrent(config, op, statics, s)) ==> StaticCurrent(config, op, statics, s)
      ensures old(patches) <= patches && old(observedWrites) <= observedWrites && Genuine(patches, |old(patches)|, config, op)
      ensures old(&& DeploymentCurrent(config, ContextFor(config, op, source, fetched, account.value.uid), deployment)
                  && StaticCurrent(config, op, statics, WebhookConfiguration) && observed == DesiredObserved(config, op)) ==>
                && deployment == old(deployment) && statics == old(statics) && observed == old(observed)
                && patches == old(patches) && observedWrites == old(observedWrites)
      ensures r.Ok? ==> Buildable(config, op.manifest, op.image, op.lib, fetched)
      ensures healthy && Buildable(config, op.manifest, op.image, op.lib, fetched) ==> r.Ok?
    {
      hide StaticCurrent, DeploymentCurrent, BundleHash, DesiredObserved, ResourceLabels, PassOrder, Buildable, ManagedAnnotations;
      InOrder(config, WebhookConfiguration);
      r := CreateOrApplyDeployment(config, op, labels, hash);
      if r.Err? {
        return;
      }
      r := CreateOrApplyWebhookConfiguration(config, op, labels);
      if r.Err? {
        return;
      }
      r := UpdateStatusObservedState(config, op);
    }

    /** The steps of a pass in order, up to the first error. */
    method ReconcileSteps(config: Config, op: Operator) returns (r: Result<(), string>)
      modifies this`package, this`account, this`statics, this`deployment, this`observed, this`patches, this`observedWrites
      ensures r.Ok? ==> Converged(Now(), config, op)
      ensures old(account).Some? ==> account.Some? && account.value.uid == old(account).value.uid
      ensures old(patches) <= patches && old(observedWrites) <= observedWrites && Genuine(patches, |old(patches)|, config, op)
      ensures r.Ok? && !old(PackageCurrent(config, op, source, package)) ==> old(patches) + [PatchFor(config, op, PackageKey)] <= patches
      ensures old(ConvergedButPackage(Now(), config, op)) ==>
                && account == old(account) && statics == old(statics) && deployment == old(deployment) && observed == old(observed)
                && AtMost(old(patches), patches, PatchFor(config, op, PackageKey)) && observedWrites == old(observedWrites)
      ensures old(Converged(Now(), config, op)) ==> package == old(package) && patches == old(patches)
      ensures r.Ok? ==> old(Passable(Now(), config, op))
      ensures healthy && old(Passable(Now(), config, op)) ==> r.Ok?
    {
      hide PackageCurrent, MetadataDrifted, StaticCurrent, DeploymentCurrent, BundleHash, DesiredObserved, ResourceLabels, Buildable, PassOrder, PatchFor;
      var readFailed := Fault(healthy);
      if !op.configValid(config) || readFailed || TrustNamespace(config) !in namespaces {
        return Err("validation failed");
      }
      var labels := new LabelMap(ResourceLabels(config, op));
      var hash := ReconcilePrerequisites(config, op, labels);
      if hash.Err? {
        return Err(hash.error);
      }
      r := ReconcileOperand(config, op, labels, hash.value);
    }

    /**
     One pass, from any state of the cluster. Success converges it, and comes exactly when
     the pass can succeed if the API server is healthy; a pass over a converged cluster sends
     nothing, whatever its reads do, and one that has only the package behind applies at most
     the package.
     */
    method Reconcile(config: Config, op: Operator) returns (r: Result<(), string>)
      modifies this`package, this`account, this`statics, this`deployment, this`observed, this`patches, this`observedWrites
      ensures old(patches) <= patches && old(observedWrites) <= observedWrites
      ensures Legal(Entry(Pass(config, healthy), r.Ok?, patches[|old(patches)|..], observedWrites - old(observedWrites), old(Now()), Now()), op)
    {
      hide PackageCurrent, AccountCurrent, StaticCurrent, StaticsCurrent, DeploymentCurrent, BundleHash, DesiredObserved, ResourceLabels, Passable, PassOrder, PatchFor;
      r := ReconcileSteps(config, op);
      ghost var sent := patches[|old(patches)|..];
      assert patches == old(patches) + [PatchFor(config, op, PackageKey)] ==> sent == [PatchFor(config, op, PackageKey)];
      assert old(patches) + [PatchFor(config, op, PackageKey)] <= patches ==> sent[0] == PatchFor(config, op, PackageKey);
      assert forall i :: 0 <= i < |sent| ==> sent[i] == patches[|old(patches)| + i];
    }

    ghost method Record(e: Entry, op: Operator)
      requires LegalLog(log, op) && Legal(e, op) && (log != [] ==> log[|log| - 1].after == e.before) && e.after == Now()
      requires patches == AllSent(log) + e.sent && observedWrites == AllObservedWrites(log) + e.observedWrites
      modifies this`log
      ensures Valid(op) && log == old(log) + [e]
    {
      log := log + [e];
      assert log[..|log| - 1] == old(log);
    }

    /** Others do anything at all. */
    method OthersEdit(to: World, op: Operator)
      requires Valid(op)
      modifies this
      ensures Valid(op) && log == old(log) + [Entry(Edit(to), true, [], 0, old(Now()), to)]
    {
      hide LegalLog, AllSent, AllObservedWrites;
      Become(to);
      Record(Entry(Edit(to), true, [], 0, old(Now()), to), op);
    }

    method Become(to: World)
      modifies this`source, this`fetched, this`namespaces, this`package, this`account, this`statics, this`deployment, this`observed
      ensures Now() == to
    {
      source, fetched, namespaces, package := to.source, to.fetched, to.namespaces, to.package;
      account, statics, deployment, observed := to.account, to.statics, to.deployment, to.observed;
    }

    method LoggedPass(config: Config, health: bool, op: Operator) returns (r: Result<(), string>)
      requires Valid(op)
      modifies this
      ensures Valid(op) && old(patches) <= patches && old(observedWrites) <= observedWrites
      ensures log == old(log) + [Entry(Pass(config, health), r.Ok?, patches[|old(patches)|..], observedWrites - old(observedWrites), old(Now()), Now())]
    {
      hide Legal, LegalLog, AllSent, AllObservedWrites;
      healthy := health;
      r := Reconcile(config, op);
      Record(Entry(Pass(config, health), r.Ok?, patches[|old(patches)|..], observedWrites - old(observedWrites), old(Now()), Now()), op);
    }

    /** One step of a run: a pass of the controller, or an edit. */
    method Act(action: Action, op: Operator)
      requires Valid(op)
      modifies this
      ensures Valid(op) && |log| == |old(log)| + 1 && old(log) <= log
      ensures log[|log| - 1].action == action && log[|log| - 1].before == old(Now())
    {
      hide Valid;
      match action {
        case Pass(config, health) =>
          var _ := LoggedPass(config, health, op);
        case Edit(to) =>
          OthersEdit(to, op);
      }
    }
  }

  /**
   Every run of passes, under changing configurations and with failures anywhere, and of
   outside edits. The log has one entry per step and accounts for everything sent.
   */
  method Run(c: Cluster, op: Operator, script: seq<Action>)
    requires c.Valid(op) && c.log == []
    modifies c
    ensures c.Valid(op) && |c.log| == |script| && forall i :: 0 <= i < |script| ==> c.log[i].action == script[i]
    ensures script != [] ==> c.log[0].before == old(c.Now()) && c.log[|c.log| - 1].after == c.Now()
    ensures c.patches == AllSent(c.log) && c.observedWrites == AllObservedWrites(c.log)
    ensures SilentOnceConverged(c.log, op)
    ensures OnlyPackageFollows(c.log, op)
    ensures InForceAfterSuccess(c.log, op)
    ensures RecoversWhenPossible(c.log, op)
    ensures MetadataSent(c.log, op)
  {
    hide LegalLog, AllSent, AllObservedWrites;
    for n := 0 to |script|
      invariant c.Valid(op) && |c.log| == n && forall i :: 0 <= i < n ==> c.log[i].action == script[i]
      invariant if n == 0 then c.Now() == old(c.Now()) else c.log[0].before == old(c.Now())
    {
      c.Act(script[n], op);
    }
    LegalRuns(c.log, op);
    LegalMetadata(c.log, op);
  }

  /** A successful pass, a rewrite of the injected ConfigMap that keeps the bundle, and a successful pass. */
  ghost predicate Rewritten(log: seq<Entry>, i: nat, config: Config, resourceVersion: string) {
    && i + 2 < |log| && DefaultCaEnabled(config) && Succeeded(log[i], config) && Succeeded(log[i + 2], config)
    && log[i].after.source.Some? && log[i].after.source.value.resourceVersion != resourceVersion
    && log[i + 1].action == Edit(log[i].after.(source := Some(log[i].after.source.value.(resourceVersion := resourceVersion))))
  }

  /** The second pass applies the package with the new version and nothing else. */
  lemma RewriteUpdatesPackageOnly(log: seq<Entry>, op: Operator, i: nat, config: Config, resourceVersion: string)
    requires Rewritten(log, i, config, resourceVersion)
    ensures LegalLog(log, op) ==>
              && log[i + 2].sent == [PatchFor(config, op, PackageKey)] && log[i + 2].observedWrites == 0
              && log[i + 2].after.deployment == log[i].after.deployment
              && log[i + 2].after.package.Some? && log[i + 2].after.package.value.package.version == resourceVersion
  {
    hide PackagesAlike, AccountsAlike, StaticsAlike, LiveDeploymentsAlike, ConvergedButPackage, InForce, ForeignOnly, Passable;
    if LegalLog(log, op) {
      var w, rewritten := log[i].after, log[i + 1].after;
      assert Legal(log[i], op) && Legal(log[i + 1], op) && Legal(log[i + 2], op);
      assert log[i + 1].before == w && log[i + 2].before == rewritten;
      assert Converged(w, config, op) && Converged(log[i + 2].after, config, op);
      hide PassKeeps;
      RewrittenSourceBehind(w, config, op, resourceVersion);
      AlikeItself(w, rewritten.source, config, op);
      assert BundleKept(log, i, i + 2, config, op);
      LegalRuns(log, op);
    }
  }

  lemma AlikeItself(w: World, source: Option<CaSource>, config: Config, op: Operator)
    requires source.Some? == w.source.Some? && (source.Some? ==> source.value.bundle == w.source.value.bundle)
    ensures Unobtrusive(w, w.(source := source), config, op)
  {
  }
}
