/**
 The trust-manager deployment: building the desired object from the manifest
 (pkg/controller/trustmanager/deployments.go, deployment_tls.go) and deciding whether the
 live one has drifted from it.
 */
module TrustDeployment {
  import opened Outcomes
  import opened Strings
  import opened ContainerArgs
  import opened ContainerPorts
  import Tls = TlsProfile
  import Env = ContainerEnv

  type StringMap = map<string, string>

  datatype Source = SecretSource(secretName: string) | ConfigMapSource(configMapName: string) | OtherSource(text: string)
  datatype Volume = Volume(name: string, source: Source)
  datatype Mount = Mount(name: string, path: string, readOnly: bool)
  datatype HttpGet = HttpGet(path: string, port: string)

  /** `defaulted` stands for the fields the server fills in, which are never compared. */
  datatype Probe = Probe(initialDelay: int, period: int, httpGet: Option<HttpGet>, defaulted: string)

  datatype Container = Container(
    name: string, image: string, pullPolicy: string, args: seq<string>, resources: string,
    securityContext: string, mounts: seq<Mount>, ports: seq<Port>, probe: Option<Probe>)

  datatype Deployment = Deployment(
    labels: StringMap, annotations: StringMap, replicas: Option<int>, selector: string,
    templateLabels: StringMap, templateAnnotations: StringMap, serviceAccount: string, nodeSelector: StringMap,
    affinity: string, tolerations: string, volumes: seq<Volume>, containers: seq<Container>)

  const CONTAINER_NAME := "trust-manager"
  const TLS_VOLUME := "tls"
  const TLS_SECRET := "trust-manager-tls"
  const SERVICE_ACCOUNT := "trust-manager"
  const PACKAGE_VOLUME := "packages"
  const PACKAGE_MOUNT_PATH := "/packages"
  const PACKAGE_CONFIG_MAP := "trust-manager-default-ca-package"
  const HASH_ANNOTATION := "operator.openshift.io/default-ca-package-hash"
  const UID_ANNOTATION := "operator.openshift.io/trust-manager-service-account-uid"

  // ----- Drift -----

  /** Reading a Go map: an absent key reads as the empty string. */
  function Lookup(m: StringMap, k: string): string {
    if k in m then m[k] else ""
  }

  /** Some managed entry has another value; entries others added do not count. */
  ghost predicate EntriesModified(desired: StringMap, existing: StringMap) {
    exists k :: k in desired && Lookup(existing, k) != desired[k]
  }

  method ManagedEntriesModified(desired: StringMap, existing: StringMap) returns (r: bool)
    ensures r <==> EntriesModified(desired, existing)
  {
    var keys := Env.EnumerateKeys(desired);
    assert forall i :: 0 <= i < |keys| ==> keys[i] in Elements(keys);
    for i := 0 to |keys|
      invariant forall j :: 0 <= j < i ==> Lookup(existing, keys[j]) == desired[keys[j]]
    {
      if Lookup(existing, keys[i]) != desired[keys[i]] {
        return true;
      }
    }
    forall k | k in desired
      ensures Lookup(existing, k) == desired[k]
    {
      assert k in Elements(keys);
    }
    return false;
  }

  predicate ProbeModified(desired: Option<Probe>, existing: Option<Probe>) {
    match (desired, existing)
    case (None, None) => false
    case (Some(d), Some(e)) =>
      || d.initialDelay != e.initialDelay
      || d.period != e.period
      || d.httpGet != e.httpGet
    case _ => true
  }

  ghost predicate ContainerModified(desired: Container, existing: Container) {
    || desired.name != existing.name
    || desired.image != existing.image
    || desired.pullPolicy != existing.pullPolicy
    || desired.args != existing.args
    || desired.resources != existing.resources
    || desired.securityContext != existing.securityContext
    || desired.mounts != existing.mounts
    || !Covers(Keys(existing.ports), Keys(desired.ports))
    || ProbeModified(desired.probe, existing.probe)
  }

  ghost predicate ContainersModified(desired: seq<Container>, existing: seq<Container>) {
    || |desired| != |existing|
    || exists i :: 0 <= i < |desired| && i < |existing| && ContainerModified(desired[i], existing[i])
  }

  ghost predicate DeploymentModified(desired: Deployment, existing: Deployment) {
    || EntriesModified(desired.labels, existing.labels)
    || EntriesModified(desired.annotations, existing.annotations)
    || desired.replicas != existing.replicas
    || desired.selector != existing.selector
    || desired.templateLabels != existing.templateLabels
    || desired.templateAnnotations != existing.templateAnnotations
    || desired.serviceAccount != existing.serviceAccount
    || desired.nodeSelector != existing.nodeSelector
    || desired.volumes != existing.volumes
    || desired.affinity != existing.affinity
    || desired.tolerations != existing.tolerations
    || ContainersModified(desired.containers, existing.containers)
  }

  method CheckDeploymentModified(desired: Deployment, existing: Deployment) returns (r: bool)
    ensures r <==> DeploymentModified(desired, existing)
  {
    var labels := ManagedEntriesModified(desired.labels, existing.labels);
    var annotations := ManagedEntriesModified(desired.annotations, existing.annotations);
    if labels || annotations {
      return true;
    }
    if desired.replicas != existing.replicas || desired.selector != existing.selector
       || desired.templateLabels != existing.templateLabels || desired.templateAnnotations != existing.templateAnnotations {
      return true;
    }
    if desired.serviceAccount != existing.serviceAccount || desired.nodeSelector != existing.nodeSelector
       || desired.volumes != existing.volumes || desired.affinity != existing.affinity
       || desired.tolerations != existing.tolerations {
      return true;
    }
    if |desired.containers| != |existing.containers| {
      return true;
    }
    for i := 0 to |desired.containers|
      invariant forall j :: 0 <= j < i ==> !ContainerModified(desired.containers[j], existing.containers[j])
    {
      var modified := CheckContainerModified(desired.containers[i], existing.containers[i]);
      if modified {
        return true;
      }
    }
    return false;
  }

  method CheckContainerModified(desired: Container, existing: Container) returns (r: bool)
    ensures r <==> ContainerModified(desired, existing)
  {
    if desired.name != existing.name || desired.image != existing.image || desired.pullPolicy != existing.pullPolicy {
      return true;
    }
    if desired.args != existing.args || desired.resources != existing.resources
       || desired.securityContext != existing.securityContext || desired.mounts != existing.mounts {
      return true;
    }
    var portsMatch := ContainerPortsMatch(desired.ports, existing.ports);
    return !portsMatch || ProbeModified(desired.probe, existing.probe);
  }

  /** Server-side apply: everything as desired, but for metadata entries of other owners. */
  function Applied(desired: Deployment, existing: Option<Deployment>): Deployment {
    match existing
    case None => desired
    case Some(e) => desired.(labels := e.labels + desired.labels, annotations := e.annotations + desired.annotations)
  }

  lemma OverlaidUnmodified(desired: StringMap, existing: StringMap)
    ensures !EntriesModified(desired, existing + desired)
    ensures !EntriesModified(desired, desired)
  {
  }

  /**
   What an unmodified verdict means, field by field: metadata under managed keys, the whole
   specification and pod template, and the containers one by one. Free are other metadata
   entries, the order of the ports and whatever else a port has, and defaulted probe fields.
   */
  ghost predicate InDesiredState(desired: Deployment, existing: Deployment) {
    && (forall k :: k in desired.labels ==> (if k in existing.labels then existing.labels[k] else "") == desired.labels[k])
    && (forall k :: k in desired.annotations ==> (if k in existing.annotations then existing.annotations[k] else "") == desired.annotations[k])
    && existing.replicas == desired.replicas && existing.selector == desired.selector
    && existing.templateLabels == desired.templateLabels && existing.templateAnnotations == desired.templateAnnotations
    && existing.serviceAccount == desired.serviceAccount && existing.nodeSelector == desired.nodeSelector
    && existing.affinity == desired.affinity && existing.tolerations == desired.tolerations && existing.volumes == desired.volumes
    && |existing.containers| == |desired.containers|
    && (forall i :: 0 <= i < |desired.containers| ==> ContainerInDesiredState(desired.containers[i], existing.containers[i]))
  }

  ghost predicate ContainerInDesiredState(desired: Container, existing: Container) {
    && existing.name == desired.name && existing.image == desired.image && existing.pullPolicy == desired.pullPolicy
    && existing.args == desired.args && existing.resources == desired.resources
    && existing.securityContext == desired.securityContext && existing.mounts == desired.mounts
    && |existing.ports| == |desired.ports|
    && (forall i :: 0 <= i < |desired.ports| ==> HasPort(existing.ports, desired.ports[i].number, desired.ports[i].name))
    && existing.probe.Some? == desired.probe.Some?
    && (desired.probe.Some? ==> && existing.probe.value.initialDelay == desired.probe.value.initialDelay
                                && existing.probe.value.period == desired.probe.value.period
                                && existing.probe.value.httpGet == desired.probe.value.httpGet)
  }

  lemma ContainerUnmodifiedMeans(desired: Container, existing: Container)
    ensures !ContainerModified(desired, existing) <==> ContainerInDesiredState(desired, existing)
  {
    CoversPorts(existing.ports, desired.ports);
  }

  /** The check is complete and raises no false alarm. */
  lemma UnmodifiedMeans(desired: Deployment, existing: Deployment)
    ensures !DeploymentModified(desired, existing) <==> InDesiredState(desired, existing)
  {
    hide ContainerModified, ContainerInDesiredState;
    forall i | 0 <= i < |desired.containers| && i < |existing.containers|
      ensures !ContainerModified(desired.containers[i], existing.containers[i]) <==> ContainerInDesiredState(desired.containers[i], existing.containers[i])
    {
      ContainerUnmodifiedMeans(desired.containers[i], existing.containers[i]);
    }
    EntriesUnmodifiedMeans(desired.labels, existing.labels);
    EntriesUnmodifiedMeans(desired.annotations, existing.annotations);
    hide EntriesModified;
  }

  lemma EntriesUnmodifiedMeans(desired: StringMap, existing: StringMap)
    ensures !EntriesModified(desired, existing) <==> forall k :: k in desired ==> (if k in existing then existing[k] else "") == desired[k]
  {
    assert forall k :: Lookup(existing, k) == if k in existing then existing[k] else "";
  }

  /** Applying removes every drift the check can see. */
  lemma AppliedUnmodified(desired: Deployment, existing: Option<Deployment>)
    ensures !DeploymentModified(desired, Applied(desired, existing))
  {
    if existing.Some? {
      OverlaidUnmodified(desired.labels, existing.value.labels);
      OverlaidUnmodified(desired.annotations, existing.value.annotations);
    }
    forall i | 0 <= i < |desired.containers|
      ensures !ContainerModified(desired.containers[i], desired.containers[i])
    {
      PermutationCovers(Keys(desired.containers[i].ports), Keys(desired.containers[i].ports));
    }
  }

  /** The same entries under the given keys, as Go reads them. */
  ghost predicate AgreeOn(keys: set<string>, a: StringMap, b: StringMap) {
    forall k :: k in keys ==> Lookup(a, k) == Lookup(b, k)
  }

  lemma ForeignEntriesIgnored(desired: StringMap, existing: StringMap, other: StringMap)
    requires AgreeOn(desired.Keys, existing, other)
    ensures EntriesModified(desired, existing) <==> EntriesModified(desired, other)
  {
    assert forall k :: k in desired ==> Lookup(existing, k) == Lookup(other, k);
  }

  /** Two live deployments that differ only in metadata entries under other keys than these. */
  ghost predicate DeploymentsAlike(labels: set<string>, annotations: set<string>, a: Deployment, b: Deployment) {
    && b == a.(labels := b.labels, annotations := b.annotations)
    && AgreeOn(labels, a.labels, b.labels) && AgreeOn(annotations, a.annotations, b.annotations)
  }

  /** Labels and annotations under keys the controller does not manage never count as drift. */
  lemma ForeignMetadataIgnored(desired: Deployment, existing: Deployment, other: Deployment)
    requires DeploymentsAlike(desired.labels.Keys, desired.annotations.Keys, existing, other)
    ensures DeploymentModified(desired, existing) <==> DeploymentModified(desired, other)
  {
    hide EntriesModified;
    ForeignEntriesIgnored(desired.labels, existing.labels, other.labels);
    ForeignEntriesIgnored(desired.annotations, existing.annotations, other.annotations);
  }

  // ----- The desired object -----

  /** The TrustManager settings the deployment depends on, and the verdicts of the library validators. */
  datatype Config = Config(
    labels: StringMap, annotations: StringMap,
    logFormat: string, logLevel: string, trustNamespace: string,
    secretTargetsPolicy: string, authorizedSecrets: seq<string>,
    filterExpired: string, defaultCaPolicy: string,
    resources: Option<string>, affinity: Option<string>, tolerations: Option<string>, nodeSelector: Option<StringMap>,
    schedulingValid: bool)

  predicate DefaultCaEnabled(config: Config) {
    config.defaultCaPolicy == "Enabled"
  }

  predicate SecretTargetsEnabled(config: Config) {
    config.secretTargetsPolicy == "Custom" && |config.authorizedSecrets| > 0
  }

  function TrustNamespace(config: Config): string {
    if config.trustNamespace != "" then config.trustNamespace else "cert-manager"
  }

  function DeploymentArgs(config: Config): seq<string> {
    [Tls.Flag("--log-format", config.logFormat),
     Tls.Flag("--log-level", config.logLevel),
     Tls.Flag("--metrics-port", "9402"),
     Tls.Flag("--readiness-probe-port", "6060")]
    + [Tls.Flag("--readiness-probe-path", "/readyz"),
       Tls.Flag("--leader-elect", "true"),
       Tls.Flag("--leader-election-lease-duration", "15s"),
       Tls.Flag("--leader-election-renew-deadline", "10s")]
    + [Tls.Flag("--trust-namespace", TrustNamespace(config)),
       Tls.Flag("--webhook-host", "0.0.0.0"),
       Tls.Flag("--webhook-port", "6443"),
       Tls.Flag("--webhook-certificate-dir", "/tls")]
    + (if SecretTargetsEnabled(config) then [Tls.Flag("--secret-targets-enabled", "true")] else [])
    + (if config.filterExpired == "Enabled" then [Tls.Flag("--filter-expired-certificates", "true")] else [])
    + (if DefaultCaEnabled(config) then [Tls.Flag("--default-package-location", "/packages/cert-manager-package-openshift.json")] else [])
  }

  function WithArgs(c: Container, args: seq<string>): Container {
    if c.name == CONTAINER_NAME then c.(args := args) else c
  }

  function WithImage(c: Container, image: string): Container {
    if c.name == CONTAINER_NAME then c.(image := image) else c
  }

  function WithResources(c: Container, resources: string): Container {
    if c.name == CONTAINER_NAME then c.(resources := resources) else c
  }

  /** The index of the first trust-manager container, or the number of containers. */
  function FirstNamed(containers: seq<Container>): (i: nat)
    ensures i <= |containers|
    ensures i < |containers| ==> containers[i].name == CONTAINER_NAME
    ensures forall j :: 0 <= j < i ==> containers[j].name != CONTAINER_NAME
  {
    if containers == [] || containers[0].name == CONTAINER_NAME then 0
    else
      var i := FirstNamed(containers[1..]);
      assert forall j :: 1 <= j < 1 + i ==> containers[j] == containers[1..][j - 1];
      1 + i
  }

  ghost function WithTlsArgs(c: Container, lib: Tls.Library, spec: Tls.Spec): Container {
    c.(args := Merge(Tls.Purged(c.args, spec, Tls.TRUST_MANAGER_CIPHER_SUITE_ARG_KEYS), Tls.TrustManagerWebhookArgs(lib, spec)))
  }

  function FirstTlsVolume(volumes: seq<Volume>): (i: nat)
    ensures i <= |volumes|
    ensures i < |volumes| ==> volumes[i].name == TLS_VOLUME && volumes[i].source.SecretSource?
    ensures forall j :: 0 <= j < i ==> volumes[j].name != TLS_VOLUME || !volumes[j].source.SecretSource?
  {
    if volumes == [] || (volumes[0].name == TLS_VOLUME && volumes[0].source.SecretSource?) then 0
    else
      var i := FirstTlsVolume(volumes[1..]);
      assert forall j :: 1 <= j < 1 + i ==> volumes[j] == volumes[1..][j - 1];
      1 + i
  }

  function WithoutVolume(volumes: seq<Volume>): seq<Volume> {
    if volumes == [] then []
    else
      var init, last := WithoutVolume(volumes[..|volumes| - 1]), volumes[|volumes| - 1];
      if last.name != PACKAGE_VOLUME then init + [last] else init
  }

  function WithoutMount(mounts: seq<Mount>): seq<Mount> {
    if mounts == [] then []
    else
      var init, last := WithoutMount(mounts[..|mounts| - 1]), mounts[|mounts| - 1];
      if last.path != PACKAGE_MOUNT_PATH then init + [last] else init
  }

  /** The manifest must have the container and the TLS secret volume. */
  predicate ManifestValid(d: Deployment) {
    FirstNamed(d.containers) < |d.containers| && FirstTlsVolume(d.volumes) < |d.volumes|
  }

  /** What the builder reads besides the configuration; `uid` is the live service account's. */
  datatype Context = Context(manifest: Deployment, labels: StringMap, image: string, lib: Tls.Library, fetched: Tls.Fetched, hash: string, uid: string)

  function MapContainers(cs: seq<Container>, f: Container -> Container): seq<Container> {
    seq(|cs|, i requires 0 <= i < |cs| => f(cs[i]))
  }

  function Labelled(d: Deployment, config: Config, ctx: Context): Deployment {
    d.(labels := ctx.labels, annotations := d.annotations + config.annotations, templateLabels := ctx.labels)
  }

  ghost function WithTlsProfile(d: Deployment, ctx: Context): Result<Deployment, string> {
    match Tls.ResolveHonored(ctx.lib, ctx.fetched)
    case Err(e) => Err(e)
    case Ok(None) => Ok(d)
    case Ok(Some(spec)) =>
      var i := FirstNamed(d.containers);
      if i == |d.containers| then Err("missing container")
      else Ok(d.(containers := d.containers[i := WithTlsArgs(d.containers[i], ctx.lib, spec)]))
  }

  function WithTlsSecret(d: Deployment): Deployment {
    var i := FirstTlsVolume(d.volumes);
    if i == |d.volumes| then d else d.(volumes := d.volumes[i := d.volumes[i].(source := SecretSource(TLS_SECRET))])
  }

  function WithPackage(d: Deployment, config: Config, hash: string): Deployment {
    if !DefaultCaEnabled(config) then d
    else
      var i := FirstNamed(d.containers);
      d.(templateAnnotations := d.templateAnnotations[HASH_ANNOTATION := hash],
         volumes := WithoutVolume(d.volumes) + [Volume(PACKAGE_VOLUME, ConfigMapSource(PACKAGE_CONFIG_MAP))],
         containers := if i == |d.containers| then d.containers
                       else d.containers[i := d.containers[i].(mounts := WithoutMount(d.containers[i].mounts) + [Mount(PACKAGE_VOLUME, PACKAGE_MOUNT_PATH, true)])])
  }

  function WithScheduling(d: Deployment, config: Config): Deployment {
    d.(affinity := if config.affinity.Some? then config.affinity.value else d.affinity,
       tolerations := if config.tolerations.Some? then config.tolerations.value else d.tolerations,
       nodeSelector := if config.nodeSelector.Some? then d.nodeSelector + config.nodeSelector.value else d.nodeSelector)
  }

  function WithUid(d: Deployment, uid: string): Deployment {
    if uid == "" then d else d.(templateAnnotations := d.templateAnnotations[UID_ANNOTATION := uid])
  }

  ghost function Desired(config: Config, ctx: Context): Result<Deployment, string> {
    if !ManifestValid(ctx.manifest) then Err("invalid manifest")
    else
      match WithTlsProfile(Prepared(config, ctx), ctx)
      case Err(e) => Err(e)
      case Ok(d) =>
        if ctx.image == "" then Err("image not set")
        else if !config.schedulingValid then Err("invalid scheduling")
        else Ok(Finished(WithPackage(WithTlsSecret(d.(serviceAccount := SERVICE_ACCOUNT)), config, ctx.hash), config, ctx))
  }

  /** What the builder needs, whatever the labels, the hash and the account. */
  predicate Buildable(config: Config, manifest: Deployment, image: string, lib: Tls.Library, fetched: Tls.Fetched) {
    ManifestValid(manifest) && Tls.ResolveHonored(lib, fetched).Ok? && image != "" && config.schedulingValid
  }

  lemma DesiredExactlyWhenBuildable(config: Config, ctx: Context)
    ensures Desired(config, ctx).Ok? <==> Buildable(config, ctx.manifest, ctx.image, ctx.lib, ctx.fetched)
  {
    hide Finished, WithPackage, WithTlsSecret, WithTlsArgs, DeploymentArgs;
    var prepared := Prepared(config, ctx);
    assert |prepared.containers| == |ctx.manifest.containers|;
    assert forall i :: 0 <= i < |prepared.containers| ==> prepared.containers[i].name == ctx.manifest.containers[i].name;
    assert FirstNamed(prepared.containers) == FirstNamed(ctx.manifest.containers);
  }

  /** Image, resources, scheduling and the account's UID. */
  function Finished(d: Deployment, config: Config, ctx: Context): Deployment {
    var withImage := d.(containers := MapContainers(d.containers, c => WithImage(c, ctx.image)));
    var withResources :=
      if config.resources.None? then withImage
      else withImage.(containers := MapContainers(withImage.containers, c => WithResources(c, config.resources.value)));
    WithUid(WithScheduling(withResources, config), ctx.uid)
  }

  /** The pod template carries the account's UID and, when enabled, the hash of the bundle. */
  ghost predicate Stamped(d: Deployment, config: Config, hash: string, uid: string) {
    && (uid != "" ==> UID_ANNOTATION in d.templateAnnotations && d.templateAnnotations[UID_ANNOTATION] == uid)
    && (DefaultCaEnabled(config) ==> HASH_ANNOTATION in d.templateAnnotations && d.templateAnnotations[HASH_ANNOTATION] == hash)
  }

  lemma MapKeeps(cs: seq<Container>, f: Container -> Container)
    requires forall c :: f(c).name == c.name && f(c).args == c.args
    ensures SameNamesAndArgs(MapContainers(cs, f), cs)
  {
  }

  /** What the last steps leave alone: metadata, and the names and arguments of the containers. */
  lemma FinishedKeeps(d: Deployment, config: Config, ctx: Context)
    ensures var f := Finished(d, config, ctx);
            && f.labels == d.labels && f.annotations == d.annotations && f.templateLabels == d.templateLabels
            && SameNamesAndArgs(f.containers, d.containers)
            && f.templateAnnotations == if ctx.uid == "" then d.templateAnnotations else d.templateAnnotations[UID_ANNOTATION := ctx.uid]
  {
    hide MapContainers;
    MapKeeps(d.containers, c => WithImage(c, ctx.image));
    if config.resources.Some? {
      MapKeeps(MapContainers(d.containers, c => WithImage(c, ctx.image)), c => WithResources(c, config.resources.value));
    }
  }

  lemma UpdateKeeps(cs: seq<Container>, i: nat, c: Container)
    requires i < |cs| && c.name == cs[i].name && c.args == cs[i].args
    ensures SameNamesAndArgs(cs[i := c], cs) && SameNamesAndArgs(cs, cs)
  {
  }

  lemma PackageKeeps(d: Deployment, config: Config, hash: string)
    ensures var p := WithPackage(d, config, hash);
            && p.labels == d.labels && p.annotations == d.annotations && p.templateLabels == d.templateLabels
            && SameNamesAndArgs(p.containers, d.containers)
  {
    var i := FirstNamed(d.containers);
    if DefaultCaEnabled(config) && i < |d.containers| {
      hide SameNamesAndArgs, FirstNamed, WithoutVolume, WithoutMount;
      UpdateKeeps(d.containers, i, d.containers[i].(mounts := WithoutMount(d.containers[i].mounts) + [Mount(PACKAGE_VOLUME, PACKAGE_MOUNT_PATH, true)]));
    }
  }

  lemma ProfileKeeps(d: Deployment, ctx: Context)
    requires WithTlsProfile(d, ctx).Ok?
    ensures var p := WithTlsProfile(d, ctx).value; p.labels == d.labels && p.annotations == d.annotations && p.templateLabels == d.templateLabels
  {
  }

  ghost predicate SameNamesAndArgs(a: seq<Container>, b: seq<Container>) {
    |a| == |b| && forall i :: 0 <= i < |a| ==> a[i].name == b[i].name && a[i].args == b[i].args
  }

  lemma AnnotationsDiffer()
    ensures HASH_ANNOTATION != UID_ANNOTATION
  {
    assert HASH_ANNOTATION[22] != UID_ANNOTATION[22];
  }

  lemma FinishedStamped(d: Deployment, config: Config, ctx: Context)
    ensures Stamped(Finished(WithPackage(d, config, ctx.hash), config, ctx), config, ctx.hash, ctx.uid)
  {
    AnnotationsDiffer();
    var withPackage := WithPackage(d, config, ctx.hash);
    assert DefaultCaEnabled(config) ==> withPackage.templateAnnotations == d.templateAnnotations[HASH_ANNOTATION := ctx.hash];
    hide WithPackage, Finished;
    FinishedKeeps(withPackage, config, ctx);
  }

  /** The manifest with labels and arguments, before the TLS profile. */
  function Prepared(config: Config, ctx: Context): Deployment {
    var labelled := Labelled(ctx.manifest, config, ctx);
    labelled.(containers := MapContainers(labelled.containers, c => WithArgs(c, DeploymentArgs(config))))
  }

  lemma DesiredStamped(config: Config, ctx: Context)
    requires Desired(config, ctx).Ok?
    ensures Stamped(Desired(config, ctx).value, config, ctx.hash, ctx.uid)
  {
    hide Finished, WithPackage, WithTlsProfile, WithTlsSecret, Stamped, Prepared;
    FinishedStamped(WithTlsSecret(WithTlsProfile(Prepared(config, ctx), ctx).value.(serviceAccount := SERVICE_ACCOUNT)), config, ctx);
  }

  /** The metadata the controller manages on the deployment. */
  lemma DesiredMetadata(config: Config, ctx: Context)
    requires Desired(config, ctx).Ok?
    ensures Desired(config, ctx).value.labels == ctx.labels
    ensures Desired(config, ctx).value.annotations == ctx.manifest.annotations + config.annotations
  {
    hide Finished, WithPackage, WithTlsProfile, MapContainers, DeploymentArgs, Merge;
    var profiled := WithTlsProfile(Prepared(config, ctx), ctx).value;
    ProfileKeeps(Prepared(config, ctx), ctx);
    var d := WithTlsSecret(profiled.(serviceAccount := SERVICE_ACCOUNT));
    PackageKeeps(d, config, ctx.hash);
    FinishedKeeps(WithPackage(d, config, ctx.hash), config, ctx);
  }

  /** The pod template gets exactly the labels handed in. */
  lemma DesiredTemplateLabels(config: Config, ctx: Context)
    requires Desired(config, ctx).Ok?
    ensures Desired(config, ctx).value.templateLabels == ctx.labels
  {
    hide Finished, WithPackage, WithTlsProfile, MapContainers, DeploymentArgs, Merge;
    var profiled := WithTlsProfile(Prepared(config, ctx), ctx).value;
    ProfileKeeps(Prepared(config, ctx), ctx);
    var d := WithTlsSecret(profiled.(serviceAccount := SERVICE_ACCOUNT));
    PackageKeeps(d, config, ctx.hash);
    FinishedKeeps(WithPackage(d, config, ctx.hash), config, ctx);
  }

  lemma UnmodifiedStamped(desired: Deployment, existing: Deployment, config: Config, hash: string, uid: string)
    requires Stamped(desired, config, hash, uid) && !DeploymentModified(desired, existing)
    ensures Stamped(existing, config, hash, uid)
  {
  }

  // ----- What the operand runs with -----

  ghost function LogAndProbeFlags(config: Config): ArgMap {
    map["--log-format" := config.logFormat, "--log-level" := config.logLevel, "--metrics-port" := "9402", "--readiness-probe-port" := "6060"]
  }

  ghost function LeaderElectionFlags(): ArgMap {
    map["--readiness-probe-path" := "/readyz", "--leader-elect" := "true",
        "--leader-election-lease-duration" := "15s", "--leader-election-renew-deadline" := "10s"]
  }

  ghost function WebhookFlags(config: Config): ArgMap {
    map["--trust-namespace" := (if config.trustNamespace != "" then config.trustNamespace else "cert-manager"),
        "--webhook-host" := "0.0.0.0", "--webhook-port" := "6443", "--webhook-certificate-dir" := "/tls"]
  }

  ghost function FeatureFlags(config: Config): ArgMap {
    (if config.secretTargetsPolicy == "Custom" && config.authorizedSecrets != [] then map["--secret-targets-enabled" := "true"] else map[])
    + (if config.filterExpired == "Enabled" then map["--filter-expired-certificates" := "true"] else map[])
    + (if config.defaultCaPolicy == "Enabled" then map["--default-package-location" := "/packages/cert-manager-package-openshift.json"] else map[])
  }

  /** The flags trust-manager gets, apart from the TLS profile. */
  ghost function ReferenceArgs(config: Config): ArgMap {
    LogAndProbeFlags(config) + LeaderElectionFlags() + WebhookFlags(config) + FeatureFlags(config)
  }

  /** The arguments are these flags, with the honoured profile on the webhook. */
  ghost predicate ArgsAsConfigured(args: seq<string>, config: Config, lib: Tls.Library, honored: Option<Tls.Spec>) {
    Parse(args) ==
    match honored
    case None => ReferenceArgs(config)
    case Some(spec) =>
      if spec.minTlsVersion == "VersionTLS13" then
        ReferenceArgs(config) - {"--tls-cipher-suites"} + map["--tls-min-version" := spec.minTlsVersion]
      else
        ReferenceArgs(config)
        + map["--tls-min-version" := spec.minTlsVersion, "--tls-cipher-suites" := Join(lib.iana(spec.ciphers.Items()), ",")]
  }

  lemma FlagKeysAreKeys()
    ensures '=' !in "--log-format" && '=' !in "--log-level" && '=' !in "--metrics-port" && '=' !in "--readiness-probe-port"
    ensures '=' !in "--readiness-probe-path" && '=' !in "--leader-elect"
  {
  }

  lemma MoreFlagKeysAreKeys()
    ensures '=' !in "--leader-election-lease-duration" && '=' !in "--leader-election-renew-deadline"
    ensures '=' !in "--trust-namespace" && '=' !in "--webhook-host" && '=' !in "--webhook-port"
  {
  }

  lemma LastFlagKeysAreKeys()
    ensures '=' !in "--webhook-certificate-dir" && '=' !in "--secret-targets-enabled"
    ensures '=' !in "--filter-expired-certificates" && '=' !in "--default-package-location"
  {
  }

  lemma ParseFlags(k1: string, v1: string, k2: string, v2: string, k3: string, v3: string, k4: string, v4: string, args: seq<string>)
    requires '=' !in k1 && '=' !in k2 && '=' !in k3 && '=' !in k4
    requires args == [Tls.Flag(k1, v1), Tls.Flag(k2, v2), Tls.Flag(k3, v3), Tls.Flag(k4, v4)]
    ensures Parse(args) == map[k1 := v1, k2 := v2, k3 := v3, k4 := v4]
  {
    hide Parse, Entry, Tls.Flag;
    Tls.FlagEntry(k1, v1);
    Tls.FlagEntry(k2, v2);
    Tls.FlagEntry(k3, v3);
    Tls.FlagEntry(k4, v4);
    Tls.ParseFour(args[0], args[1], args[2], args[3], args);
  }

  lemma ParseOptional(key: string, value: string, given: bool, args: seq<string>)
    requires '=' !in key && args == if given then [Tls.Flag(key, value)] else []
    ensures Parse(args) == if given then map[key := value] else map[]
  {
    if given {
      Tls.FlagEntry(key, value);
      Tls.ParseOne(args[0], args);
    }
  }

  lemma DeploymentArgsAre(config: Config)
    ensures Parse(DeploymentArgs(config)) == ReferenceArgs(config)
  {
    hide Parse, Tls.Flag;
    FlagKeysAreKeys();
    MoreFlagKeysAreKeys();
    LastFlagKeysAreKeys();
    var a := [Tls.Flag("--log-format", config.logFormat), Tls.Flag("--log-level", config.logLevel),
              Tls.Flag("--metrics-port", "9402"), Tls.Flag("--readiness-probe-port", "6060")];
    var b := [Tls.Flag("--readiness-probe-path", "/readyz"), Tls.Flag("--leader-elect", "true"),
              Tls.Flag("--leader-election-lease-duration", "15s"), Tls.Flag("--leader-election-renew-deadline", "10s")];
    var c := [Tls.Flag("--trust-namespace", TrustNamespace(config)), Tls.Flag("--webhook-host", "0.0.0.0"),
              Tls.Flag("--webhook-port", "6443"), Tls.Flag("--webhook-certificate-dir", "/tls")];
    var d := if SecretTargetsEnabled(config) then [Tls.Flag("--secret-targets-enabled", "true")] else [];
    var e := if config.filterExpired == "Enabled" then [Tls.Flag("--filter-expired-certificates", "true")] else [];
    var f := if DefaultCaEnabled(config) then [Tls.Flag("--default-package-location", "/packages/cert-manager-package-openshift.json")] else [];
    ParseFlags("--log-format", config.logFormat, "--log-level", config.logLevel, "--metrics-port", "9402", "--readiness-probe-port", "6060", a);
    ParseFlags("--readiness-probe-path", "/readyz", "--leader-elect", "true", "--leader-election-lease-duration", "15s", "--leader-election-renew-deadline", "10s", b);
    ParseFlags("--trust-namespace", TrustNamespace(config), "--webhook-host", "0.0.0.0", "--webhook-port", "6443", "--webhook-certificate-dir", "/tls", c);
    ParseOptional("--secret-targets-enabled", "true", SecretTargetsEnabled(config), d);
    ParseOptional("--filter-expired-certificates", "true", config.filterExpired == "Enabled", e);
    ParseOptional("--default-package-location", "/packages/cert-manager-package-openshift.json", DefaultCaEnabled(config), f);
    ParseSix(a, b, c, d, e, f);
    assert DeploymentArgs(config) == a + b + c + d + e + f;
    AddAssociative(Parse(a) + Parse(b) + Parse(c), Parse(d), Parse(e));
    AddAssociative(Parse(a) + Parse(b) + Parse(c), Parse(d) + Parse(e), Parse(f));
  }

  lemma ParseSix(a: seq<string>, b: seq<string>, c: seq<string>, d: seq<string>, e: seq<string>, f: seq<string>)
    ensures Parse(a + b + c + d + e + f) == Parse(a) + Parse(b) + Parse(c) + Parse(d) + Parse(e) + Parse(f)
  {
    hide Parse;
    ParseConcat(a, b);
    ParseConcat(a + b, c);
    ParseConcat(a + b + c, d);
    ParseConcat(a + b + c + d, e);
    ParseConcat(a + b + c + d + e, f);
  }

  /** With the flags of a profile merged in. */
  lemma ProfiledArgsAre(config: Config, lib: Tls.Library, spec: Tls.Spec)
    ensures ArgsAsConfigured(Merge(Tls.Purged(DeploymentArgs(config), spec, Tls.TRUST_MANAGER_CIPHER_SUITE_ARG_KEYS), Tls.TrustManagerWebhookArgs(lib, spec)),
                             config, lib, Some(spec))
  {
    hide Parse, DeploymentArgs, Tls.TrustManagerWebhookArgs, Merge, Strip, Join;
    var args, flags := DeploymentArgs(config), Tls.TrustManagerWebhookArgs(lib, spec);
    DeploymentArgsAre(config);
    Tls.TrustManagerFlags(lib, spec);
    ParseMerge(Tls.Purged(args, spec, Tls.TRUST_MANAGER_CIPHER_SUITE_ARG_KEYS), flags);
    ParseStrip(args, set k | k in Tls.TRUST_MANAGER_CIPHER_SUITE_ARG_KEYS);
    assert (set k | k in Tls.TRUST_MANAGER_CIPHER_SUITE_ARG_KEYS) == {"--tls-cipher-suites"};
    NoEmptyFlag(config);
  }

  lemma NoEmptyAmongFour(k1: string, v1: string, k2: string, v2: string, k3: string, v3: string, k4: string, v4: string)
    requires |k1| > 0 && |k2| > 0 && |k3| > 0 && |k4| > 0
    ensures "" !in map[k1 := v1, k2 := v2, k3 := v3, k4 := v4]
  {
  }

  lemma NoEmptyFeatureFlag(config: Config)
    ensures "" !in FeatureFlags(config)
  {
  }

  lemma NoEmptyFixedFlag(config: Config)
    ensures "" !in LogAndProbeFlags(config) && "" !in LeaderElectionFlags() && "" !in WebhookFlags(config)
  {
    NoEmptyAmongFour("--log-format", config.logFormat, "--log-level", config.logLevel, "--metrics-port", "9402", "--readiness-probe-port", "6060");
    NoEmptyAmongFour("--readiness-probe-path", "/readyz", "--leader-elect", "true",
                     "--leader-election-lease-duration", "15s", "--leader-election-renew-deadline", "10s");
    NoEmptyAmongFour("--trust-namespace", if config.trustNamespace != "" then config.trustNamespace else "cert-manager",
                     "--webhook-host", "0.0.0.0", "--webhook-port", "6443", "--webhook-certificate-dir", "/tls");
  }

  lemma NoEmptyFlag(config: Config)
    ensures "" !in ReferenceArgs(config)
  {
    hide LogAndProbeFlags, LeaderElectionFlags, WebhookFlags, FeatureFlags;
    NoEmptyFixedFlag(config);
    NoEmptyFeatureFlag(config);
  }

  ghost predicate MountsAsConfigured(mounts: seq<Mount>, config: Config) {
    config.defaultCaPolicy == "Enabled" ==>
      && Mount("packages", "/packages", true) in mounts
      && forall m :: m in mounts && m.path == "/packages" ==> m == Mount("packages", "/packages", true)
  }

  ghost predicate VolumesAsConfigured(volumes: seq<Volume>, config: Config) {
    && Volume("tls", SecretSource("trust-manager-tls")) in volumes
    && (config.defaultCaPolicy == "Enabled" ==>
          && Volume("packages", ConfigMapSource("trust-manager-default-ca-package")) in volumes
          && forall v :: v in volumes && v.name == "packages" ==> v == Volume("packages", ConfigMapSource("trust-manager-default-ca-package")))
  }

  ghost predicate ContainersAsConfigured(containers: seq<Container>, config: Config, image: string, lib: Tls.Library, honored: Option<Tls.Spec>) {
    && (forall i :: 0 <= i < |containers| && containers[i].name == "trust-manager" ==>
                      containers[i].image == image && (config.resources.Some? ==> containers[i].resources == config.resources.value))
    && FirstNamed(containers) < |containers|
    && ArgsAsConfigured(containers[FirstNamed(containers)].args, config, lib, honored)
    && MountsAsConfigured(containers[FirstNamed(containers)].mounts, config)
  }

  ghost predicate SchedulingAsConfigured(d: Deployment, config: Config) {
    && (config.affinity.Some? ==> d.affinity == config.affinity.value)
    && (config.tolerations.Some? ==> d.tolerations == config.tolerations.value)
    && (config.nodeSelector.Some? ==> forall k :: k in config.nodeSelector.value ==> k in d.nodeSelector && d.nodeSelector[k] == config.nodeSelector.value[k])
  }

  /** What a trust-manager deployment is to run, spelled out: account, image, flags, TLS profile, CA package, scheduling. */
  ghost predicate OperandAsConfigured(d: Deployment, config: Config, image: string, lib: Tls.Library, honored: Option<Tls.Spec>) {
    && d.serviceAccount == "trust-manager"
    && ContainersAsConfigured(d.containers, config, image, lib, honored)
    && VolumesAsConfigured(d.volumes, config) && SchedulingAsConfigured(d, config)
  }

  ghost predicate SameNames(a: seq<Container>, b: seq<Container>) {
    |a| == |b| && forall i :: 0 <= i < |a| ==> a[i].name == b[i].name
  }

  lemma SameNamesSameFirst(a: seq<Container>, b: seq<Container>)
    requires SameNames(a, b)
    ensures FirstNamed(a) == FirstNamed(b)
  {
  }

  lemma {:induction false} WithoutVolumeIs(volumes: seq<Volume>, v: Volume)
    ensures v in WithoutVolume(volumes) <==> v in volumes && v.name != "packages"
  {
    if volumes != [] {
      WithoutVolumeIs(volumes[..|volumes| - 1], v);
      assert volumes == volumes[..|volumes| - 1] + [volumes[|volumes| - 1]];
    }
  }

  lemma {:induction false} WithoutMountIs(mounts: seq<Mount>, m: Mount)
    ensures m in WithoutMount(mounts) <==> m in mounts && m.path != "/packages"
  {
    if mounts != [] {
      WithoutMountIs(mounts[..|mounts| - 1], m);
      assert mounts == mounts[..|mounts| - 1] + [mounts[|mounts| - 1]];
    }
  }

  /** The steps before the image: account, TLS secret and CA package. */
  lemma PackageConfigures(profiled: Deployment, config: Config, hash: string)
    requires FirstNamed(profiled.containers) < |profiled.containers| && FirstTlsVolume(profiled.volumes) < |profiled.volumes|
    ensures var p := WithPackage(WithTlsSecret(profiled.(serviceAccount := SERVICE_ACCOUNT)), config, hash);
            && p.serviceAccount == "trust-manager" && VolumesAsConfigured(p.volumes, config)
            && FirstNamed(p.containers) == FirstNamed(profiled.containers) && |p.containers| == |profiled.containers|
            && MountsAsConfigured(p.containers[FirstNamed(p.containers)].mounts, config)
            && SameNamesAndArgs(p.containers, profiled.containers)
  {
    var d := WithTlsSecret(profiled.(serviceAccount := SERVICE_ACCOUNT));
    PackageKeeps(d, config, hash);
    var p := WithPackage(d, config, hash);
    SameNamesSameFirst(p.containers, profiled.containers);
    PackageVolumes(profiled.volumes, d.volumes, p.volumes, config);
    if DefaultCaEnabled(config) {
      PackageMounts(d.containers[FirstNamed(d.containers)].mounts, config);
    }
  }

  lemma TlsSecretVolume(before: seq<Volume>)
    requires FirstTlsVolume(before) < |before|
    ensures Volume("tls", SecretSource("trust-manager-tls")) in before[FirstTlsVolume(before) := before[FirstTlsVolume(before)].(source := SecretSource(TLS_SECRET))]
  {
    var i := FirstTlsVolume(before);
    var secret := before[i := before[i].(source := SecretSource(TLS_SECRET))];
    assert secret[i] == Volume("tls", SecretSource("trust-manager-tls"));
  }

  lemma PackageVolumes(before: seq<Volume>, secret: seq<Volume>, after: seq<Volume>, config: Config)
    requires FirstTlsVolume(before) < |before|
    requires secret == before[FirstTlsVolume(before) := before[FirstTlsVolume(before)].(source := SecretSource(TLS_SECRET))]
    requires after == if DefaultCaEnabled(config) then WithoutVolume(secret) + [Volume(PACKAGE_VOLUME, ConfigMapSource(PACKAGE_CONFIG_MAP))] else secret
    ensures VolumesAsConfigured(after, config)
  {
    TlsSecretVolume(before);
    if DefaultCaEnabled(config) {
      PackageVolumeAppended(secret);
    }
  }

  lemma PackageVolumeAppended(volumes: seq<Volume>)
    ensures var package := Volume("packages", ConfigMapSource("trust-manager-default-ca-package"));
            var after := WithoutVolume(volumes) + [package];
            && package in after && (forall v :: v in after && v.name == "packages" ==> v == package)
            && (forall v :: v in volumes && v.name == "tls" ==> v in after)
  {
    hide WithoutVolume;
    assert |"tls"| != |"packages"|;
    var package := Volume("packages", ConfigMapSource("trust-manager-default-ca-package"));
    var after := WithoutVolume(volumes) + [package];
    assert after[|after| - 1] == package;
    forall v: Volume
      ensures v in WithoutVolume(volumes) <==> v in volumes && v.name != "packages"
    {
      WithoutVolumeIs(volumes, v);
    }
  }

  lemma PackageMounts(mounts: seq<Mount>, config: Config)
    ensures MountsAsConfigured(WithoutMount(mounts) + [Mount(PACKAGE_VOLUME, PACKAGE_MOUNT_PATH, true)], config)
  {
    var after := WithoutMount(mounts) + [Mount(PACKAGE_VOLUME, PACKAGE_MOUNT_PATH, true)];
    assert after[|after| - 1] in after;
    forall m | m in after && m.path == "/packages"
      ensures m == Mount("packages", "/packages", true)
    {
      WithoutMountIs(mounts, m);
    }
  }

  /** Image, resources and scheduling, with everything else kept. */
  lemma FinishConfigures(p: Deployment, config: Config, ctx: Context)
    ensures var f := Finished(p, config, ctx);
            && f.serviceAccount == p.serviceAccount && f.volumes == p.volumes && SchedulingAsConfigured(f, config)
            && SameNamesAndArgs(f.containers, p.containers)
            && forall i :: 0 <= i < |p.containers| ==>
                             && f.containers[i].mounts == p.containers[i].mounts
                             && (p.containers[i].name == "trust-manager" ==>
                                   f.containers[i].image == ctx.image && (config.resources.Some? ==> f.containers[i].resources == config.resources.value))
  {
    FinishedKeeps(p, config, ctx);
    FinishedContainers(p, config, ctx);
    hide MapContainers;
  }

  lemma FinishedContainers(p: Deployment, config: Config, ctx: Context)
    ensures var f := Finished(p, config, ctx).containers;
            && |f| == |p.containers|
            && forall i :: 0 <= i < |f| ==>
                             f[i] == if config.resources.Some? then WithResources(WithImage(p.containers[i], ctx.image), config.resources.value)
                                     else WithImage(p.containers[i], ctx.image)
  {
  }

  ghost function HonoredBy(lib: Tls.Library, fetched: Tls.Fetched): Option<Tls.Spec> {
    match Tls.ResolveHonored(lib, fetched)
    case Ok(honored) => honored
    case Err(_) => None
  }

  lemma ProfiledContainers(config: Config, ctx: Context)
    requires ManifestValid(ctx.manifest) && WithTlsProfile(Prepared(config, ctx), ctx).Ok?
    ensures var profiled := WithTlsProfile(Prepared(config, ctx), ctx).value;
            && profiled.volumes == ctx.manifest.volumes && SameNames(profiled.containers, ctx.manifest.containers)
            && FirstNamed(profiled.containers) < |profiled.containers|
            && ArgsAsConfigured(profiled.containers[FirstNamed(profiled.containers)].args, config, ctx.lib, HonoredBy(ctx.lib, ctx.fetched))
  {
    hide ArgsAsConfigured, DeploymentArgs, Merge, Tls.Purged, Tls.TrustManagerWebhookArgs;
    var prepared := Prepared(config, ctx);
    assert SameNames(prepared.containers, ctx.manifest.containers);
    SameNamesSameFirst(prepared.containers, ctx.manifest.containers);
    var i := FirstNamed(prepared.containers);
    assert prepared.containers[i].args == DeploymentArgs(config);
    PlainArgsAre(config, ctx.lib);
    match Tls.ResolveHonored(ctx.lib, ctx.fetched)
    case Ok(Some(spec)) =>
      ProfiledArgsAre(config, ctx.lib, spec);
      var after := prepared.containers[i := WithTlsArgs(prepared.containers[i], ctx.lib, spec)];
      assert SameNames(after, prepared.containers);
      SameNamesSameFirst(after, prepared.containers);
    case _ =>
  }

  lemma PlainArgsAre(config: Config, lib: Tls.Library)
    ensures ArgsAsConfigured(DeploymentArgs(config), config, lib, None)
  {
    DeploymentArgsAre(config);
  }

  /** The desired deployment runs what is configured. */
  lemma DesiredAsConfigured(config: Config, ctx: Context)
    requires Desired(config, ctx).Ok?
    ensures OperandAsConfigured(Desired(config, ctx).value, config, ctx.image, ctx.lib, HonoredBy(ctx.lib, ctx.fetched))
  {
    hide Finished, WithPackage, WithTlsProfile, WithTlsSecret, Prepared, ArgsAsConfigured, MountsAsConfigured, VolumesAsConfigured, SchedulingAsConfigured;
    var profiled := WithTlsProfile(Prepared(config, ctx), ctx).value;
    ProfiledContainers(config, ctx);
    SameNamesSameFirst(profiled.containers, ctx.manifest.containers);
    PackageConfigures(profiled, config, ctx.hash);
    var p := WithPackage(WithTlsSecret(profiled.(serviceAccount := SERVICE_ACCOUNT)), config, ctx.hash);
    FinishConfigures(p, config, ctx);
    SameNamesSameFirst(Finished(p, config, ctx).containers, p.containers);
  }

  /** A live deployment with an unmodified verdict runs it, too. */
  lemma UnmodifiedAsConfigured(desired: Deployment, existing: Deployment, config: Config, image: string, lib: Tls.Library, honored: Option<Tls.Spec>)
    requires OperandAsConfigured(desired, config, image, lib, honored) && !DeploymentModified(desired, existing)
    ensures OperandAsConfigured(existing, config, image, lib, honored)
  {
    hide ArgsAsConfigured, MountsAsConfigured, VolumesAsConfigured, DeploymentModified;
    UnmodifiedMeans(desired, existing);
    SameNamesSameFirst(existing.containers, desired.containers);
  }

  // ----- Cipher suites at TLS 1.3 -----

  predicate HonorsTls13(lib: Tls.Library, fetched: Tls.Fetched) {
    match Tls.ResolveHonored(lib, fetched)
    case Ok(Some(spec)) => spec.minTlsVersion == Tls.VERSION_TLS13
    case _ => false
  }

  ghost predicate NoCipherArgs(args: seq<string>) {
    Parse(args).Keys !! Elements(Tls.TRUST_MANAGER_CIPHER_SUITE_ARG_KEYS)
  }

  /** There is a trust-manager container, and its arguments set no cipher suites. */
  ghost predicate NoCipherSuites(containers: seq<Container>) {
    FirstNamed(containers) < |containers| && NoCipherArgs(containers[FirstNamed(containers)].args)
  }

  lemma SameFirstNamed(a: seq<Container>, b: seq<Container>)
    requires SameNamesAndArgs(a, b)
    ensures FirstNamed(a) == FirstNamed(b) && (NoCipherSuites(a) <==> NoCipherSuites(b))
  {
    hide NoCipherArgs;
  }

  lemma TlsArgsHaveNoCiphers(args: seq<string>, lib: Tls.Library, spec: Tls.Spec)
    requires spec.minTlsVersion == Tls.VERSION_TLS13
    ensures NoCipherArgs(Merge(Tls.Purged(args, spec, Tls.TRUST_MANAGER_CIPHER_SUITE_ARG_KEYS), Tls.TrustManagerWebhookArgs(lib, spec)))
  {
    Tls.NoCipherFlagsAtTls13(lib, spec);
    Tls.NoCipherSurvives(lib, spec, args, Tls.TrustManagerWebhookArgs(lib, spec), Tls.TRUST_MANAGER_CIPHER_SUITE_ARG_KEYS);
  }

  lemma ProfileLeavesNoCiphers(d: Deployment, ctx: Context)
    requires HonorsTls13(ctx.lib, ctx.fetched) && WithTlsProfile(d, ctx).Ok?
    ensures NoCipherSuites(WithTlsProfile(d, ctx).value.containers)
  {
    hide NoCipherArgs, Merge, Tls.Purged, Tls.TrustManagerWebhookArgs;
    var spec := Tls.ResolveHonored(ctx.lib, ctx.fetched).value.value;
    var i := FirstNamed(d.containers);
    TlsArgsHaveNoCiphers(d.containers[i].args, ctx.lib, spec);
    var after := d.containers[i := WithTlsArgs(d.containers[i], ctx.lib, spec)];
    assert FirstNamed(after) == i by {
      assert forall j :: 0 <= j < |after| ==> after[j].name == d.containers[j].name;
    }
  }

  /** With TLS 1.3 honoured, no desired deployment sets cipher suites, whatever the manifest says. */
  lemma DesiredHasNoCiphers(config: Config, ctx: Context)
    ensures HonorsTls13(ctx.lib, ctx.fetched) && Desired(config, ctx).Ok? ==> NoCipherSuites(Desired(config, ctx).value.containers)
  {
    hide Finished, WithPackage, WithTlsProfile, NoCipherSuites, Prepared, HonorsTls13;
    if HonorsTls13(ctx.lib, ctx.fetched) && Desired(config, ctx).Ok? {
      var profiled := WithTlsProfile(Prepared(config, ctx), ctx).value;
      ProfileLeavesNoCiphers(Prepared(config, ctx), ctx);
      var d := WithTlsSecret(profiled.(serviceAccount := SERVICE_ACCOUNT));
      assert d.containers == profiled.containers;
      var packaged := WithPackage(d, config, ctx.hash);
      PackageKeeps(d, config, ctx.hash);
      SameFirstNamed(packaged.containers, d.containers);
      FinishedKeeps(packaged, config, ctx);
      SameFirstNamed(Finished(packaged, config, ctx).containers, packaged.containers);
    }
  }

  lemma UnmodifiedHasNoCiphers(desired: Deployment, existing: Deployment)
    requires !DeploymentModified(desired, existing)
    ensures NoCipherSuites(existing.containers) <==> NoCipherSuites(desired.containers)
  {
    SameFirstNamed(existing.containers, desired.containers) by {
      assert forall i :: 0 <= i < |desired.containers| ==> !ContainerModified(desired.containers[i], existing.containers[i]);
    }
  }

  /** A deployment object under construction. */
  class Builder {
    var d: Deployment

    constructor (manifest: Deployment)
      ensures d == manifest
    {
      d := manifest;
    }

    method UpdateDeploymentArgs(config: Config)
      modifies this
      ensures d == old(d).(containers := MapContainers(old(d).containers, c => WithArgs(c, DeploymentArgs(config))))
    {
      var args := DeploymentArgs(config);
      for i := 0 to |d.containers|
        invariant d == old(d).(containers := d.containers) && |d.containers| == |old(d).containers|
        invariant forall j :: 0 <= j < i ==> d.containers[j] == WithArgs(old(d).containers[j], args)
        invariant forall j :: i <= j < |d.containers| ==> d.containers[j] == old(d).containers[j]
      {
        if d.containers[i].name == CONTAINER_NAME {
          d := d.(containers := d.containers[i := d.containers[i].(args := args)]);
        }
      }
    }

    method UpdateImage(image: string)
      modifies this
      ensures d == old(d).(containers := MapContainers(old(d).containers, c => WithImage(c, image)))
    {
      for i := 0 to |d.containers|
        invariant d == old(d).(containers := d.containers) && |d.containers| == |old(d).containers|
        invariant forall j :: 0 <= j < i ==> d.containers[j] == WithImage(old(d).containers[j], image)
        invariant forall j :: i <= j < |d.containers| ==> d.containers[j] == old(d).containers[j]
      {
        if d.containers[i].name == CONTAINER_NAME {
          d := d.(containers := d.containers[i := d.containers[i].(image := image)]);
        }
      }
    }

    method UpdateResources(resources: string)
      modifies this
      ensures d == old(d).(containers := MapContainers(old(d).containers, c => WithResources(c, resources)))
    {
      for i := 0 to |d.containers|
        invariant d == old(d).(containers := d.containers) && |d.containers| == |old(d).containers|
        invariant forall j :: 0 <= j < i ==> d.containers[j] == WithResources(old(d).containers[j], resources)
        invariant forall j :: i <= j < |d.containers| ==> d.containers[j] == old(d).containers[j]
      {
        if d.containers[i].name == CONTAINER_NAME {
          d := d.(containers := d.containers[i := d.containers[i].(resources := resources)]);
        }
      }
    }

    /** Only the first trust-manager container is rewritten; no cipher-suite key is left in it at TLS 1.3. */
    method ApplyWebhookTlsArgs(lib: Tls.Library, spec: Tls.Spec) returns (ok: bool)
      modifies this
      ensures ok <==> FirstNamed(old(d).containers) < |old(d).containers|
      ensures ok ==>
                var i := FirstNamed(old(d).containers);
                d == old(d).(containers := old(d).containers[i := WithTlsArgs(old(d).containers[i], lib, spec)])
      ensures ok && spec.minTlsVersion == Tls.VERSION_TLS13 ==> NoCipherArgs(d.containers[FirstNamed(old(d).containers)].args)
      ensures !ok ==> d == old(d)
    {
      hide NoCipherArgs, Merge, Tls.TrustManagerWebhookArgs;
      var extra := Tls.TrustManagerWebhookArgs(lib, spec);
      for i := 0 to |d.containers|
        invariant d == old(d) && forall j :: 0 <= j < i ==> d.containers[j].name != CONTAINER_NAME
      {
        if d.containers[i].name == CONTAINER_NAME {
          var sourceArgs := d.containers[i].args;
          if spec.minTlsVersion == Tls.VERSION_TLS13 {
            var keys := ArgKeysSet(Tls.TRUST_MANAGER_CIPHER_SUITE_ARG_KEYS);
            TlsArgsHaveNoCiphers(sourceArgs, lib, spec);
            sourceArgs := StripArgsByKeys(sourceArgs, keys);
          }
          var merged := MergeContainerArgs(sourceArgs, extra);
          d := d.(containers := d.containers[i := d.containers[i].(args := merged)]);
          return true;
        }
      }
      return false;
    }

    method UpdateTlsSecretVolume()
      modifies this
      ensures d == WithTlsSecret(old(d))
    {
      for i := 0 to |d.volumes|
        invariant d == old(d)
        invariant forall j :: 0 <= j < i ==> d.volumes[j].name != TLS_VOLUME || !d.volumes[j].source.SecretSource?
      {
        if d.volumes[i].name == TLS_VOLUME && d.volumes[i].source.SecretSource? {
          d := d.(volumes := d.volumes[i := d.volumes[i].(source := SecretSource(TLS_SECRET))]);
          return;
        }
      }
    }

    method UpdateDefaultCaPackageVolume(config: Config, hash: string)
      modifies this
      ensures d == WithPackage(old(d), config, hash)
    {
      if !DefaultCaEnabled(config) {
        return;
      }
      var volumes := [];
      for i := 0 to |d.volumes|
        invariant volumes == WithoutVolume(d.volumes[..i])
      {
        assert d.volumes[..i + 1][..i] == d.volumes[..i];
        if d.volumes[i].name != PACKAGE_VOLUME {
          volumes := volumes + [d.volumes[i]];
        }
      }
      assert d.volumes[..|d.volumes|] == d.volumes;
      d := d.(templateAnnotations := d.templateAnnotations[HASH_ANNOTATION := hash],
              volumes := volumes + [Volume(PACKAGE_VOLUME, ConfigMapSource(PACKAGE_CONFIG_MAP))]);
      MountPackage();
    }

    method MountPackage()
      modifies this
      ensures var i := FirstNamed(old(d).containers);
              d == old(d).(containers := if i == |old(d).containers| then old(d).containers
                                         else old(d).containers[i := old(d).containers[i].(mounts := WithoutMount(old(d).containers[i].mounts) + [Mount(PACKAGE_VOLUME, PACKAGE_MOUNT_PATH, true)])])
    {
      for i := 0 to |d.containers|
        invariant d == old(d) && forall j :: 0 <= j < i ==> d.containers[j].name != CONTAINER_NAME
      {
        if d.containers[i].name == CONTAINER_NAME {
          var source := d.containers[i].mounts;
          var mounts := [];
          for j := 0 to |source|
            invariant mounts == WithoutMount(source[..j])
          {
            assert source[..j + 1][..j] == source[..j];
            if source[j].path != PACKAGE_MOUNT_PATH {
              mounts := mounts + [source[j]];
            }
          }
          assert source[..|source|] == source;
          d := d.(containers := d.containers[i := d.containers[i].(mounts := mounts + [Mount(PACKAGE_VOLUME, PACKAGE_MOUNT_PATH, true)])]);
          return;
        }
      }
    }
  }

  /** Deterministic, although merging arguments walks Go maps. */
  method GetDeploymentObject(config: Config, ctx: Context) returns (r: Result<Deployment, string>)
    ensures r == Desired(config, ctx)
  {
    hide DeploymentArgs, WithoutVolume, WithoutMount, NoCipherArgs, WithTlsArgs, FirstNamed, FirstTlsVolume, StrictlySorted;
    if !ManifestValid(ctx.manifest) {
      return Err("invalid manifest");
    }
    var b := new Builder(Labelled(ctx.manifest, config, ctx));
    b.UpdateDeploymentArgs(config);
    match Tls.ResolveHonored(ctx.lib, ctx.fetched) {
      case Err(e) => return Err(e);
      case Ok(None) =>
      case Ok(Some(spec)) =>
        var ok := b.ApplyWebhookTlsArgs(ctx.lib, spec);
        if !ok {
          return Err("missing container");
        }
    }
    b.d := b.d.(serviceAccount := SERVICE_ACCOUNT);
    b.UpdateTlsSecretVolume();
    b.UpdateDefaultCaPackageVolume(config, ctx.hash);
    if ctx.image == "" {
      return Err("image not set");
    }
    b.UpdateImage(ctx.image);
    if !config.schedulingValid {
      return Err("invalid scheduling");
    }
    if config.resources.Some? {
      b.UpdateResources(config.resources.value);
    }
    return Ok(WithUid(WithScheduling(b.d, config), ctx.uid));
  }
}
