/**
 The ordered hooks that turn a cert-manager operand manifest into the deployment the
 operator applies (pkg/controller/certmanager/generic_deployment_controller.go).

 Each hook rewrites the deployment in place. `RunHooks` runs them in the registered order
 and stops at the first error; its contract equates the parsed final arguments with one
 expression over maps, `FinalArgs`, and the lemmas say what that expression guarantees.
 */
module HookPipeline {
  import opened Outcomes
  import opened Strings
  import opened ContainerArgs
  import opened TlsProfile
  import Env = ContainerEnv

  const CONTROLLER := "cert-manager"
  const WEBHOOK := "cert-manager-webhook"
  const CAINJECTOR := "cert-manager-cainjector"

  datatype Container = Container(image: string, args: seq<string>, env: seq<Env.EnvVar>)

  datatype OperandConfig = OperandConfig(overrideArgs: seq<string>, overrideEnv: seq<Env.EnvVar>)

  /** The CertManager object named "cluster", one optional section per operand. */
  datatype CertManager = CertManager(controller: Option<OperandConfig>, webhook: Option<OperandConfig>,
                                     cainjector: Option<OperandConfig>)

  /** Decoded break-glass arguments, one list per operand. */
  datatype UnsupportedOverrides = UnsupportedOverrides(controller: seq<string>, webhook: seq<string>, cainjector: seq<string>)

  /** What the OpenShift-only hooks read. `cloudEnv` is the variable added for AWS credentials. */
  datatype Infrastructure = Infrastructure(apiServer: Option<ApiServer>, cloudCredentialsMounted: bool, cloudEnv: Option<Env.EnvVar>)

  /**
   Everything the hooks read apart from the deployment. The boolean fields are the verdicts
   of validators over fields this model does not have.
   */
  datatype Inputs = Inputs(
    lib: Library,
    logLevel: string,
    relatedImage: string -> string,
    certManager: Option<CertManager>,
    performanceArgsValid: ArgMap -> bool,
    podLabelsValid: bool,
    proxyVars: seq<Env.EnvVar>,
    resourcesValid: bool,
    schedulingValid: bool,
    trustedCaPresent: bool,
    infrastructure: Option<Infrastructure>,
    unsupported: Option<UnsupportedOverrides>)

  const UPSTREAM_ACME_SOLVER_IMAGE := "quay.io/jetstack/cert-manager-acmesolver"

  predicate IsOperand(name: string) {
    name == CONTROLLER || name == WEBHOOK || name == CAINJECTOR
  }

  // ----- The layers, in the order in which they are applied -----

  function SolverArgs(inputs: Inputs, name: string): seq<string> {
    if name == CONTROLLER then [Flag("--acme-http01-solver-image", inputs.relatedImage(UPSTREAM_ACME_SOLVER_IMAGE))] else []
  }

  function LogLevelArgs(inputs: Inputs): seq<string> {
    match inputs.logLevel
    case "Normal" => ["--v=2"]
    case "Debug" => ["--v=4"]
    case "Trace" => ["--v=6"]
    case "TraceAll" => ["--v=8"]
    case _ => []
  }

  function Config(certManager: CertManager, name: string): Option<OperandConfig> {
    if name == CONTROLLER then certManager.controller
    else if name == WEBHOOK then certManager.webhook
    else if name == CAINJECTOR then certManager.cainjector
    else None
  }

  function OverrideArgs(inputs: Inputs, name: string): seq<string> {
    if inputs.certManager.None? || Config(inputs.certManager.value, name).None? then []
    else Config(inputs.certManager.value, name).value.overrideArgs
  }

  function OverrideEnv(inputs: Inputs, name: string): seq<Env.EnvVar> {
    if inputs.certManager.None? || Config(inputs.certManager.value, name).None? then []
    else Config(inputs.certManager.value, name).value.overrideEnv
  }

  function SupportedArgs(name: string): seq<string> {
    if name == CONTROLLER then [
      "--acme-http01-solver-nameservers",
      "--acme-http01-solver-resource-limits-cpu",
      "--acme-http01-solver-resource-limits-memory",
      "--acme-http01-solver-resource-request-cpu",
      "--acme-http01-solver-resource-request-memory",
      "--dns01-recursive-nameservers"
    ] + [
      "--dns01-recursive-nameservers-only",
      "--v", "-V",
      "--metrics-listen-address",
      "--issuer-ambient-credentials",
      "--enable-certificate-owner-ref"
    ] + [
      "--certificate-request-minimum-backoff-duration",
      "--concurrent-workers",
      "--kube-api-qps",
      "--kube-api-burst",
      "--max-concurrent-challenges"
    ] else if name == WEBHOOK || name == CAINJECTOR then ["--v", "-V"]
    else []
  }

  function SupportedEnv(name: string): seq<string> {
    if name == CONTROLLER then ["HTTP_PROXY", "HTTPS_PROXY", "NO_PROXY"] else []
  }

  /** The profile the TLS hook honours; `Err` is the hook's own error. */
  function HonoredSpec(inputs: Inputs): Result<Option<Spec>, string> {
    if inputs.infrastructure.None? then Ok(None)
    else
      ResolveHonored(inputs.lib, match inputs.infrastructure.value.apiServer
                                 case None => FetchFailed
                                 case Some(apiServer) => Found(apiServer))
  }

  function TlsArgs(inputs: Inputs, name: string, spec: Spec): seq<string> {
    if name == WEBHOOK then CertManagerWebhookArgs(inputs.lib, spec)
    else if name == CONTROLLER || name == CAINJECTOR then CertManagerOperandMetricsArgs(inputs.lib, spec)
    else []
  }

  const METRICS_CA_NAMESPACE := "--metrics-dynamic-serving-ca-secret-namespace"
  const METRICS_CA_NAME := "--metrics-dynamic-serving-ca-secret-name"
  const METRICS_DNS_NAMES := "--metrics-dynamic-serving-dns-names"

  function MetricsDnsNames(name: string): string {
    name + "," + name + ".$(POD_NAMESPACE)," + name + ".$(POD_NAMESPACE).svc"
  }

  function MetricsArgs(name: string): seq<string> {
    if IsOperand(name) then
      [Flag(METRICS_CA_NAMESPACE, "$(POD_NAMESPACE)"),
       Flag(METRICS_CA_NAME, "cert-manager-metrics-ca"),
       Flag(METRICS_DNS_NAMES, MetricsDnsNames(name))]
    else []
  }

  function UnsupportedArgs(inputs: Inputs, name: string): seq<string> {
    if inputs.unsupported.None? then []
    else if name == CONTROLLER then inputs.unsupported.value.controller
    else if name == WEBHOOK then inputs.unsupported.value.webhook
    else if name == CAINJECTOR then inputs.unsupported.value.cainjector
    else []
  }

  // ----- The whole pipeline as one expression over maps -----

  function CipherKeys(): set<string> {
    {TLS_CIPHER_SUITES, METRICS_TLS_CIPHER_SUITES}
  }

  function BeforeTls(inputs: Inputs, name: string, manifest: seq<string>, overrideArgs: seq<string>): ArgMap {
    Parse(manifest) + Parse(SolverArgs(inputs, name)) + Parse(LogLevelArgs(inputs)) + Parse(overrideArgs)
  }

  function WithTls(inputs: Inputs, name: string, m: ArgMap): ArgMap {
    match HonoredSpec(inputs)
    case Ok(Some(spec)) =>
      (if spec.minTlsVersion == VERSION_TLS13 then m - CipherKeys() else m) + Parse(TlsArgs(inputs, name, spec))
    case _ => m
  }

  /** The manifest overridden in turn by solver image, log level, overrideArgs, TLS, metrics and break-glass flags. */
  function FinalArgs(inputs: Inputs, name: string, manifest: seq<string>, overrideArgs: seq<string>): ArgMap {
    WithTls(inputs, name, BeforeTls(inputs, name, manifest, overrideArgs))
    + Parse(MetricsArgs(name)) + Parse(UnsupportedArgs(inputs, name))
  }

  function WithCloudEnv(inputs: Inputs, name: string, m: Env.EnvMap): Env.EnvMap {
    if name == CONTROLLER && inputs.infrastructure.Some? && inputs.infrastructure.value.cloudEnv.Some? then
      var v := inputs.infrastructure.value.cloudEnv.value; m[v.name := v]
    else m
  }

  function FinalEnv(inputs: Inputs, name: string, manifest: seq<Env.EnvVar>): Env.EnvMap {
    WithCloudEnv(inputs, name, Env.Parse(manifest) + Env.Parse(inputs.proxyVars) + Env.Parse(OverrideEnv(inputs, name)))
  }

  // ----- The same, spelled out -----

  /** The override arguments of the operand's own section. */
  ghost function OwnOverrides(certManager: CertManager, name: string): ArgMap {
    if name == "cert-manager" && certManager.controller.Some? then Parse(certManager.controller.value.overrideArgs)
    else if name == "cert-manager-webhook" && certManager.webhook.Some? then Parse(certManager.webhook.value.overrideArgs)
    else if name == "cert-manager-cainjector" && certManager.cainjector.Some? then Parse(certManager.cainjector.value.overrideArgs)
    else map[]
  }

  ghost function OwnBreakGlass(unsupported: UnsupportedOverrides, name: string): ArgMap {
    if name == "cert-manager" then Parse(unsupported.controller)
    else if name == "cert-manager-webhook" then Parse(unsupported.webhook)
    else Parse(unsupported.cainjector)
  }

  ghost function VerbosityFlag(logLevel: string): ArgMap {
    if logLevel == "Normal" then map["--v" := "2"]
    else if logLevel == "Debug" then map["--v" := "4"]
    else if logLevel == "Trace" then map["--v" := "6"]
    else if logLevel == "TraceAll" then map["--v" := "8"]
    else map[]
  }

  /** An honoured profile on the listeners of an operand. */
  ghost function ProfileFlags(lib: Library, spec: Spec, name: string): ArgMap {
    var version, suites := spec.minTlsVersion, Join(lib.iana(spec.ciphers.Items()), ",");
    if name == "cert-manager-webhook" then
      if version == "VersionTLS13" then map["--tls-min-version" := version, "--metrics-tls-min-version" := version]
      else map["--tls-min-version" := version, "--tls-cipher-suites" := suites,
               "--metrics-tls-min-version" := version, "--metrics-tls-cipher-suites" := suites]
    else
      if version == "VersionTLS13" then map["--metrics-tls-min-version" := version]
      else map["--metrics-tls-min-version" := version, "--metrics-tls-cipher-suites" := suites]
  }

  ghost function MetricsFlags(name: string): ArgMap {
    map["--metrics-dynamic-serving-ca-secret-namespace" := "$(POD_NAMESPACE)",
        "--metrics-dynamic-serving-ca-secret-name" := "cert-manager-metrics-ca",
        "--metrics-dynamic-serving-dns-names" := name + "," + name + ".$(POD_NAMESPACE)," + name + ".$(POD_NAMESPACE).svc"]
  }

  /** The profile that is honoured on a cluster with this infrastructure. */
  ghost function HonoredOn(lib: Library, infrastructure: Option<Infrastructure>): Option<Spec> {
    if infrastructure.None? || infrastructure.value.apiServer.None? then None
    else match ResolveHonored(lib, Found(infrastructure.value.apiServer.value))
         case Ok(honored) => honored
         case Err(_) => None
  }

  /**
   The arguments an operand is to run with, flag by flag and without any of the builders: the
   manifest, the solver image, the verbosity, the operand's own overrides, the cluster's TLS
   profile, the metrics certificate, and the operand's own break-glass arguments.
   */
  ghost function ReferenceArgs(inputs: Inputs, name: string, manifest: seq<string>): ArgMap
    requires inputs.certManager.Some? && inputs.unsupported.Some?
  {
    WithProfile(inputs.lib, HonoredOn(inputs.lib, inputs.infrastructure), name, UnprofiledArgs(inputs, name, manifest))
    + MetricsFlags(name) + OwnBreakGlass(inputs.unsupported.value, name)
  }

  ghost function UnprofiledArgs(inputs: Inputs, name: string, manifest: seq<string>): ArgMap
    requires inputs.certManager.Some?
  {
    Parse(manifest)
    + (if name == "cert-manager" then map["--acme-http01-solver-image" := inputs.relatedImage("quay.io/jetstack/cert-manager-acmesolver")] else map[])
    + VerbosityFlag(inputs.logLevel) + OwnOverrides(inputs.certManager.value, name)
  }

  ghost function WithProfile(lib: Library, honored: Option<Spec>, name: string, own: ArgMap): ArgMap {
    match honored
    case None => own
    case Some(spec) =>
      (if spec.minTlsVersion == "VersionTLS13" then own - {"--tls-cipher-suites", "--metrics-tls-cipher-suites"} else own)
      + ProfileFlags(lib, spec, name)
  }

  lemma SolverLayer(inputs: Inputs, name: string)
    ensures Parse(SolverArgs(inputs, name)) ==
            if name == "cert-manager" then map["--acme-http01-solver-image" := inputs.relatedImage("quay.io/jetstack/cert-manager-acmesolver")] else map[]
  {
    if name == CONTROLLER {
      var image := inputs.relatedImage(UPSTREAM_ACME_SOLVER_IMAGE);
      FlagEntry("--acme-http01-solver-image", image);
      ParseOne(Flag("--acme-http01-solver-image", image), SolverArgs(inputs, name));
    }
  }

  lemma VerbosityLayer(inputs: Inputs)
    ensures Parse(LogLevelArgs(inputs)) == VerbosityFlag(inputs.logLevel)
  {
    var args := LogLevelArgs(inputs);
    if args != [] {
      var level := [args[0][4]];
      assert args[0] == Flag("--v", level);
      FlagEntry("--v", level);
      ParseOne(args[0], args);
      LogLevelsDiffer();
    }
  }

  lemma LogLevelsDiffer()
    ensures "Normal" != "Debug" && "Normal" != "Trace" && "Normal" != "TraceAll"
    ensures "Debug" != "Trace" && "Debug" != "TraceAll" && "Trace" != "TraceAll"
  {
    assert "Debug"[0] != "Trace"[0];
  }

  lemma MetricsLayer(name: string)
    requires IsOperand(name)
    ensures Parse(MetricsArgs(name)) == MetricsFlags(name)
  {
    hide Flag, Parse, Entry;
    var args := MetricsArgs(name);
    MetricsFlagEntries(name);
    ParseTwo(args[0], args[1], args[..2]);
    assert Parse(args) == Parse(args[..2]) + Entry(args[2]) by {
      ParseLast(args);
    }
  }

  lemma ParseLast(args: seq<string>)
    requires args != []
    ensures Parse(args) == Parse(args[..|args| - 1]) + Entry(args[|args| - 1])
  {
  }

  lemma MetricsKeysAreKeys()
    ensures '=' !in METRICS_CA_NAMESPACE && '=' !in METRICS_CA_NAME && '=' !in METRICS_DNS_NAMES
  {
  }

  lemma MetricsFlagEntries(name: string)
    ensures Entry(Flag(METRICS_CA_NAMESPACE, "$(POD_NAMESPACE)")) == map["--metrics-dynamic-serving-ca-secret-namespace" := "$(POD_NAMESPACE)"]
    ensures Entry(Flag(METRICS_CA_NAME, "cert-manager-metrics-ca")) == map["--metrics-dynamic-serving-ca-secret-name" := "cert-manager-metrics-ca"]
    ensures Entry(Flag(METRICS_DNS_NAMES, MetricsDnsNames(name))) == map["--metrics-dynamic-serving-dns-names" := MetricsDnsNames(name)]
  {
    hide Entry, Flag;
    MetricsKeysAreKeys();
    FlagEntry(METRICS_CA_NAMESPACE, "$(POD_NAMESPACE)");
    FlagEntry(METRICS_CA_NAME, "cert-manager-metrics-ca");
    FlagEntry(METRICS_DNS_NAMES, MetricsDnsNames(name));
  }

  lemma ProfileLayer(inputs: Inputs, name: string, spec: Spec)
    requires IsOperand(name)
    ensures Parse(TlsArgs(inputs, name, spec)) == ProfileFlags(inputs.lib, spec, name)
  {
    hide Parse, CertManagerWebhookArgs, CertManagerOperandMetricsArgs;
    WebhookFlags(inputs.lib, spec);
    OperandMetricsFlags(inputs.lib, spec);
  }

  lemma SectionLayers(inputs: Inputs, name: string)
    requires IsOperand(name) && inputs.certManager.Some? && inputs.unsupported.Some?
    ensures Parse(OverrideArgs(inputs, name)) == OwnOverrides(inputs.certManager.value, name)
    ensures Parse(UnsupportedArgs(inputs, name)) == OwnBreakGlass(inputs.unsupported.value, name)
  {
  }

  lemma UnprofiledIsBeforeTls(inputs: Inputs, name: string, manifest: seq<string>)
    requires IsOperand(name) && inputs.certManager.Some? && inputs.unsupported.Some?
    ensures BeforeTls(inputs, name, manifest, OverrideArgs(inputs, name)) == UnprofiledArgs(inputs, name, manifest)
  {
    hide Parse, SolverArgs, LogLevelArgs, VerbosityFlag, OverrideArgs, OwnOverrides;
    SolverLayer(inputs, name);
    VerbosityLayer(inputs);
    SectionLayers(inputs, name);
  }

  lemma ProfileIsTls(inputs: Inputs, name: string, own: ArgMap)
    requires IsOperand(name) && (inputs.infrastructure.Some? ==> HonoredSpec(inputs).Ok?)
    ensures WithTls(inputs, name, own) == WithProfile(inputs.lib, HonoredOn(inputs.lib, inputs.infrastructure), name, own)
  {
    hide Parse, TlsArgs, ProfileFlags, EffectiveSpec;
    if HonoredSpec(inputs).Ok? && HonoredSpec(inputs).value.Some? {
      ProfileLayer(inputs, name, HonoredSpec(inputs).value.value);
    }
  }

  /** The map expression over the builders is the reference. */
  lemma FinalArgsAreReference(inputs: Inputs, name: string, manifest: seq<string>)
    requires IsOperand(name) && inputs.certManager.Some? && inputs.unsupported.Some?
    requires inputs.infrastructure.Some? ==> HonoredSpec(inputs).Ok?
    ensures FinalArgs(inputs, name, manifest, OverrideArgs(inputs, name)) == ReferenceArgs(inputs, name, manifest)
  {
    hide Parse, BeforeTls, UnprofiledArgs, WithTls, WithProfile, MetricsArgs, MetricsFlags, UnsupportedArgs, OwnBreakGlass, HonoredOn, OverrideArgs;
    UnprofiledIsBeforeTls(inputs, name, manifest);
    ProfileIsTls(inputs, name, UnprofiledArgs(inputs, name, manifest));
    SectionLayers(inputs, name);
    MetricsLayer(name);
  }

  /** The environment an operand is to run with, variable by variable. */
  ghost function ReferenceEnv(inputs: Inputs, name: string, manifest: seq<Env.EnvVar>): Env.EnvMap
    requires inputs.certManager.Some?
  {
    var cm := inputs.certManager.value;
    var own := Env.Parse(manifest) + Env.Parse(inputs.proxyVars)
               + (if name == "cert-manager" && cm.controller.Some? then Env.Parse(cm.controller.value.overrideEnv)
                  else if name == "cert-manager-webhook" && cm.webhook.Some? then Env.Parse(cm.webhook.value.overrideEnv)
                  else if name == "cert-manager-cainjector" && cm.cainjector.Some? then Env.Parse(cm.cainjector.value.overrideEnv)
                  else map[]);
    if name == "cert-manager" && inputs.infrastructure.Some? && inputs.infrastructure.value.cloudEnv.Some?
    then own[inputs.infrastructure.value.cloudEnv.value.name := inputs.infrastructure.value.cloudEnv.value] else own
  }

  lemma FinalEnvIsReference(inputs: Inputs, name: string, manifest: seq<Env.EnvVar>)
    requires IsOperand(name) && inputs.certManager.Some?
    ensures FinalEnv(inputs, name, manifest) == ReferenceEnv(inputs, name, manifest)
  {
    assert Env.Parse([]) == map[];
  }

  // ----- What the expression guarantees -----

  /** An overrideArgs list made of supported keys cannot change any other key of the result. */
  lemma OverridesOnlySupported(inputs: Inputs, name: string, manifest: seq<string>, a: seq<string>, b: seq<string>, key: string)
    requires Parse(a).Keys <= Elements(SupportedArgs(name)) && Parse(b).Keys <= Elements(SupportedArgs(name))
    requires key !in SupportedArgs(name)
    ensures AgreeAt(Surviving(FinalArgs(inputs, name, manifest, a)), Surviving(FinalArgs(inputs, name, manifest, b)), key)
  {
    hide Parse, FinalArgs, SupportedArgs;
    NotAmong(Parse(a), SupportedArgs(name), key);
    NotAmong(Parse(b), SupportedArgs(name), key);
    UntouchedKey(inputs, name, manifest, a, b, key);
  }

  lemma NotAmong(m: ArgMap, supported: seq<string>, key: string)
    requires m.Keys <= Elements(supported) && key !in supported
    ensures key !in m
  {
    assert key !in Elements(supported);
  }

  lemma UntouchedKey(inputs: Inputs, name: string, manifest: seq<string>, a: seq<string>, b: seq<string>, key: string)
    requires key !in Parse(a) && key !in Parse(b)
    ensures AgreeAt(FinalArgs(inputs, name, manifest, a), FinalArgs(inputs, name, manifest, b), key)
  {
    hide Parse, SolverArgs, LogLevelArgs, MetricsArgs, UnsupportedArgs, WithTls;
    var base := Parse(manifest) + Parse(SolverArgs(inputs, name)) + Parse(LogLevelArgs(inputs));
    assert AgreeAt(base + Parse(a), base + Parse(b), key);
    var p, q := base + Parse(a), base + Parse(b);
    AgreeWithTls(inputs, name, p, q, key);
    AgreeAdd(WithTls(inputs, name, p), WithTls(inputs, name, q), Parse(MetricsArgs(name)), key);
    AgreeAdd(WithTls(inputs, name, p) + Parse(MetricsArgs(name)), WithTls(inputs, name, q) + Parse(MetricsArgs(name)),
             Parse(UnsupportedArgs(inputs, name)), key);
  }

  ghost predicate AgreeAt<K, V>(m: map<K, V>, n: map<K, V>, key: K) {
    (key in m <==> key in n) && (key in m && key in n ==> m[key] == n[key])
  }

  lemma AgreeAdd<K, V>(m: map<K, V>, n: map<K, V>, layer: map<K, V>, key: K)
    requires AgreeAt(m, n, key)
    ensures AgreeAt(m + layer, n + layer, key)
  {
  }

  lemma AgreeWithTls(inputs: Inputs, name: string, m: ArgMap, n: ArgMap, key: string)
    requires AgreeAt(m, n, key)
    ensures AgreeAt(WithTls(inputs, name, m), WithTls(inputs, name, n), key)
  {
    match HonoredSpec(inputs)
    case Ok(Some(spec)) =>
      AgreeAdd(m, n, Parse(TlsArgs(inputs, name, spec)), key);
      AgreeAdd(m - CipherKeys(), n - CipherKeys(), Parse(TlsArgs(inputs, name, spec)), key);
    case _ =>
  }

  ghost predicate Carries(m: ArgMap, key: string, value: string) {
    key in m && m[key] == value
  }

  /**
   Break-glass arguments win on a key they mention exactly unless they set the empty key to
   the empty value, which printing loses; so they win on every key if "=" is not among them.
   */
  lemma UnsupportedWins(inputs: Inputs, name: string, manifest: seq<string>, overrideArgs: seq<string>, key: string)
    requires key in Parse(UnsupportedArgs(inputs, name))
    ensures var value := Parse(UnsupportedArgs(inputs, name))[key];
            Carries(Surviving(FinalArgs(inputs, name, manifest, overrideArgs)), key, value) <==> !(key == "" && value == "")
    ensures "=" !in UnsupportedArgs(inputs, name) ==>
              Carries(Surviving(FinalArgs(inputs, name, manifest, overrideArgs)), key, Parse(UnsupportedArgs(inputs, name))[key])
  {
    hide Parse, UnsupportedArgs, WithTls, BeforeTls, MetricsArgs;
    if "=" !in UnsupportedArgs(inputs, name) {
      NoBareSeparator(UnsupportedArgs(inputs, name));
    }
  }

  /** The failing input: the break-glass argument "=" mentions the empty key, which no deployment ends up with. */
  lemma BareSeparatorIsLost(inputs: Inputs, name: string, manifest: seq<string>, overrideArgs: seq<string>)
    requires UnsupportedArgs(inputs, name) == ["="]
    ensures "" in Parse(UnsupportedArgs(inputs, name))
    ensures "" !in Surviving(FinalArgs(inputs, name, manifest, overrideArgs))
  {
    OnlySeparatorVanishes("=");
    assert Parse(["="]) == map["" := ""];
    UnsupportedWins(inputs, name, manifest, overrideArgs, "");
  }

  lemma MetricsKeysParse()
    ensures forall value :: Key(Flag(METRICS_CA_NAMESPACE, value)) == METRICS_CA_NAMESPACE
    ensures forall value :: Key(Flag(METRICS_CA_NAME, value)) == METRICS_CA_NAME
    ensures forall value :: Key(Flag(METRICS_DNS_NAMES, value)) == METRICS_DNS_NAMES
  {
    MetricsKeysAreKeys();
    forall value: string
      ensures Key(Flag(METRICS_CA_NAMESPACE, value)) == METRICS_CA_NAMESPACE
      ensures Key(Flag(METRICS_CA_NAME, value)) == METRICS_CA_NAME
      ensures Key(Flag(METRICS_DNS_NAMES, value)) == METRICS_DNS_NAMES
    {
      FlagParses(METRICS_CA_NAMESPACE, value);
      FlagParses(METRICS_CA_NAME, value);
      FlagParses(METRICS_DNS_NAMES, value);
    }
  }

  lemma MetricsKeysDiffer()
    ensures CipherKeys() !! {METRICS_CA_NAMESPACE, METRICS_CA_NAME, METRICS_DNS_NAMES}
  {
    assert TLS_CIPHER_SUITES[2] != 'm' && METRICS_TLS_CIPHER_SUITES[10] != 'd';
    assert METRICS_CA_NAMESPACE[2] == METRICS_CA_NAME[2] == METRICS_DNS_NAMES[2] == 'm';
    assert METRICS_CA_NAMESPACE[10] == METRICS_CA_NAME[10] == METRICS_DNS_NAMES[10] == 'd';
  }

  lemma MetricsKeys(name: string)
    ensures Parse(MetricsArgs(name)).Keys !! CipherKeys()
  {
    hide Flag, Key, Parse, CipherKeys;
    MetricsKeysParse();
    MetricsKeysDiffer();
    KeysAvoided(MetricsArgs(name), CipherKeys());
  }

  /** With TLS 1.3 honoured, a cipher-suite key is in the result only if break-glass put it there. */
  lemma NoCipherSuitesAtTls13(inputs: Inputs, name: string, manifest: seq<string>, overrideArgs: seq<string>, spec: Spec)
    requires HonoredSpec(inputs) == Ok(Some(spec)) && spec.minTlsVersion == VERSION_TLS13
    ensures forall key :: key in CipherKeys() ==>
                            (key in FinalArgs(inputs, name, manifest, overrideArgs) <==> key in Parse(UnsupportedArgs(inputs, name)))
  {
    NoCipherFlagsAtTls13(inputs.lib, spec);
    MetricsKeys(name);
    forall key | key in CipherKeys()
      ensures key in FinalArgs(inputs, name, manifest, overrideArgs) <==> key in Parse(UnsupportedArgs(inputs, name))
    {
      assert key in Elements(CERT_MANAGER_CIPHER_SUITE_ARG_KEYS) by {
        assert CERT_MANAGER_CIPHER_SUITE_ARG_KEYS[0] == TLS_CIPHER_SUITES;
        assert CERT_MANAGER_CIPHER_SUITE_ARG_KEYS[1] == METRICS_TLS_CIPHER_SUITES;
      }
      assert key !in Parse(TlsArgs(inputs, name, spec));
      assert key !in WithTls(inputs, name, BeforeTls(inputs, name, manifest, overrideArgs));
    }
  }

  lemma FlagAvoidsEmptyKey(args: seq<string>)
    requires forall i :: 0 <= i < |args| ==> args[i] != "" && args[i][0] != '='
    ensures "" !in Parse(args)
  {
    KeysAvoided(args, {""});
  }

  /** None of the operator's own layers, and no supported override, mentions the empty key. */
  lemma OwnLayersAvoidEmptyKey(inputs: Inputs, name: string, spec: Spec)
    ensures "" !in Parse(SolverArgs(inputs, name)) && "" !in Parse(LogLevelArgs(inputs))
    ensures "" !in Parse(TlsArgs(inputs, name, spec)) && "" !in Parse(MetricsArgs(name))
    ensures "" !in SupportedArgs(name)
  {
    hide Parse, TlsArgs;
    FlagAvoidsEmptyKey(SolverArgs(inputs, name));
    FlagAvoidsEmptyKey(LogLevelArgs(inputs));
    MetricsAvoidEmptyKey(name);
    TlsAvoidsEmptyKey(inputs, name, spec);
    SupportedAvoidsEmptyKey(name);
  }

  lemma MetricsAvoidEmptyKey(name: string)
    ensures "" !in Parse(MetricsArgs(name))
  {
    if IsOperand(name) {
      hide Parse, MetricsArgs;
      MetricsLayer(name);
    }
  }

  lemma TlsAvoidsEmptyKey(inputs: Inputs, name: string, spec: Spec)
    ensures "" !in Parse(TlsArgs(inputs, name, spec))
  {
    hide Parse;
    FlagAvoidsEmptyKey(TlsArgs(inputs, name, spec));
  }

  lemma SupportedAvoidsEmptyKey(name: string)
    ensures "" !in SupportedArgs(name)
  {
    assert forall i :: 0 <= i < |SupportedArgs(name)| ==> |SupportedArgs(name)[i]| > 0;
  }

  /** Only the manifest and the break-glass arguments can bring in the pair that printing loses. */
  lemma VanishesOnlyFromTheEnds(inputs: Inputs, name: string, manifest: seq<string>, overrideArgs: seq<string>)
    requires Parse(overrideArgs).Keys <= Elements(SupportedArgs(name))
    ensures Vanishing(FinalArgs(inputs, name, manifest, overrideArgs)) <==>
            Vanishing(Parse(manifest) + Parse(UnsupportedArgs(inputs, name)))
    ensures "=" !in manifest && "=" !in UnsupportedArgs(inputs, name) ==>
              Surviving(FinalArgs(inputs, name, manifest, overrideArgs)) == FinalArgs(inputs, name, manifest, overrideArgs)
  {
    var spec := match HonoredSpec(inputs) case Ok(Some(s)) => s case _ => inputs.lib.modern;
    OwnLayersAvoidEmptyKey(inputs, name, spec);
    NotAmong(Parse(overrideArgs), SupportedArgs(name), "");
    EmptyKeyOnlyFromTheEnds(inputs, name, manifest, overrideArgs);
    if "=" !in manifest && "=" !in UnsupportedArgs(inputs, name) {
      NoBareSeparator(manifest);
      NoBareSeparator(UnsupportedArgs(inputs, name));
    }
  }

  lemma EmptyKeyOnlyFromTheEnds(inputs: Inputs, name: string, manifest: seq<string>, overrideArgs: seq<string>)
    requires "" !in Parse(SolverArgs(inputs, name)) && "" !in Parse(LogLevelArgs(inputs)) && "" !in Parse(overrideArgs)
    requires HonoredSpec(inputs).Ok? && HonoredSpec(inputs).value.Some? ==> "" !in Parse(TlsArgs(inputs, name, HonoredSpec(inputs).value.value))
    requires "" !in Parse(MetricsArgs(name))
    ensures AgreeAt(FinalArgs(inputs, name, manifest, overrideArgs), Parse(manifest) + Parse(UnsupportedArgs(inputs, name)), "")
  {
    hide Parse, SolverArgs, LogLevelArgs, TlsArgs, MetricsArgs, UnsupportedArgs;
    var before := BeforeTls(inputs, name, manifest, overrideArgs);
    assert AgreeAt(before, Parse(manifest), "");
    var after := WithTls(inputs, name, before);
    assert AgreeAt(after, Parse(manifest), "") by {
      assert TLS_CIPHER_SUITES != "" && METRICS_TLS_CIPHER_SUITES != "";
    }
    assert AgreeAt(after + Parse(MetricsArgs(name)), Parse(manifest), "");
    AgreeAdd(after + Parse(MetricsArgs(name)), Parse(manifest), Parse(UnsupportedArgs(inputs, name)), "");
  }

  // ----- Following the pipeline up to the vanishing pair -----

  /** Equal up to the pair ("", ""), which the next merge drops anyway. */
  ghost predicate Tracks(args: seq<string>, m: ArgMap) {
    Surviving(Parse(args)) == Surviving(m)
  }

  lemma SurvivingAbsorbs(m: ArgMap, n: ArgMap)
    ensures Surviving(Surviving(m) + n) == Surviving(m + n)
  {
    AgreeOffKey(map[], m, n, Surviving(m), m + n, "");
    assert map[] + (m + n) == m + n;
    EqualAtKey(Surviving(Surviving(m) + n), Surviving(m + n), "") by {
      assert Surviving(Surviving(m) + n) - {""} == (Surviving(m) + n) - {""};
      assert Surviving(m + n) - {""} == (m + n) - {""};
    }
  }

  lemma TracksMerge(args: seq<string>, m: ArgMap, layer: seq<string>)
    requires Tracks(args, m)
    ensures Parse(Merge(args, layer)) == Surviving(m + Parse(layer))
    ensures Tracks(Merge(args, layer), m + Parse(layer))
  {
    ParseMerge(args, layer);
    SurvivingAbsorbs(Parse(args), Parse(layer));
    SurvivingAbsorbs(m, Parse(layer));
  }

  lemma TracksLayer(args: seq<string>, m: ArgMap, layer: seq<string>)
    requires Tracks(args, m)
    ensures Tracks(Merge(args, layer), m + Parse(layer))
    ensures layer == [] ==> Tracks(args, m + Parse(layer))
  {
    TracksMerge(args, m, layer);
    if layer == [] {
      EmptyLayer(m, layer);
    }
  }

  lemma EmptyLayer(m: ArgMap, layer: seq<string>)
    requires layer == []
    ensures m + Parse(layer) == m
  {
  }

  lemma SurvivingStrip(m: ArgMap, keys: set<string>)
    requires "" !in keys
    ensures Surviving(m - keys) == Surviving(m) - keys
  {
    assert (m - keys) - {""} == (m - {""}) - keys;
  }

  lemma TracksStrip(args: seq<string>, m: ArgMap, keys: set<string>)
    requires Tracks(args, m) && "" !in keys
    ensures Tracks(Strip(args, keys), m - keys)
  {
    hide Surviving, Parse, Strip;
    ParseStrip(args, keys);
    SurvivingStrip(Parse(args), keys);
    SurvivingStrip(m, keys);
  }

  // ----- The deployment and its hooks -----

  class Deployment {
    const name: string
    var containers: seq<Container>
    var templateAnnotations: map<string, string>

    constructor (name: string, containers: seq<Container>, templateAnnotations: map<string, string>)
      ensures this.name == name && this.containers == containers && this.templateAnnotations == templateAnnotations
    {
      this.name, this.containers, this.templateAnnotations := name, containers, templateAnnotations;
    }

    /** `MergeContainerArgs` into the first container. */
    method MergeArgs(layer: seq<string>)
      requires |containers| > 0
      modifies this`containers
      ensures containers == old(containers)[0 := old(containers[0]).(args := Merge(old(containers[0].args), layer))]
    {
      var merged := MergeContainerArgs(containers[0].args, layer);
      containers := containers[0 := containers[0].(args := merged)];
    }

    method MergeEnv(layer: seq<Env.EnvVar>)
      requires |containers| > 0
      modifies this`containers
      ensures containers == old(containers)[0 := old(containers[0]).(env := Env.Merge(old(containers[0].env), layer))]
    {
      var merged := Env.MergeContainerEnvs(containers[0].env, layer);
      containers := containers[0 := containers[0].(env := merged)];
    }

    /** Images are looked up by name; the controller also gets the solver image flag. */
    method WithOperandImageOverride(inputs: Inputs)
      modifies this`containers
      ensures |containers| == |old(containers)|
      ensures forall i :: 0 <= i < |containers| ==> containers[i].image == inputs.relatedImage(old(containers)[i].image)
      ensures forall i :: 0 <= i < |containers| ==> containers[i].env == old(containers)[i].env
      ensures forall i :: 0 <= i < |containers| && (|containers| != 1 || name != CONTROLLER) ==> containers[i].args == old(containers)[i].args
      ensures |containers| == 1 && name == CONTROLLER ==> containers[0].args == Merge(old(containers)[0].args, SolverArgs(inputs, name))
    {
      var index := 0;
      while index < |containers|
        invariant 0 <= index <= |containers| == |old(containers)|
        invariant forall i :: 0 <= i < index ==> containers[i] == old(containers)[i].(image := inputs.relatedImage(old(containers)[i].image))
        invariant forall i :: index <= i < |containers| ==> containers[i] == old(containers)[i]
      {
        containers := containers[index := containers[index].(image := inputs.relatedImage(containers[index].image))];
        index := index + 1;
      }
      if |containers| == 1 && name == CONTROLLER {
        MergeArgs([Flag("--acme-http01-solver-image", inputs.relatedImage(UPSTREAM_ACME_SOLVER_IMAGE))]);
      }
    }

    method WithLogLevel(inputs: Inputs)
      requires |containers| > 0
      modifies this`containers
      ensures containers == if LogLevelArgs(inputs) == [] then old(containers)
                            else old(containers)[0 := old(containers[0]).(args := Merge(old(containers[0].args), LogLevelArgs(inputs)))]
    {
      var verbosity := LogLevelArgs(inputs);
      if verbosity != [] {
        MergeArgs(verbosity);
      }
    }

    /** The override applies before it is validated; the pipeline then stops if it is not supported. */
    method WithContainerArgsOverride(inputs: Inputs) returns (ok: bool)
      modifies this`containers
      ensures ok <==> inputs.certManager.Some? && IsOperand(name)
      ensures containers ==
              if ok && OverrideArgs(inputs, name) != [] && |old(containers)| == 1
              then [old(containers[0]).(args := Merge(old(containers[0].args), OverrideArgs(inputs, name)))]
              else old(containers)
    {
      if inputs.certManager.None? || !IsOperand(name) {
        return false;
      }
      var overrideArgs := OverrideArgs(inputs, name);
      if |overrideArgs| > 0 && |containers| == 1 {
        MergeArgs(overrideArgs);
      }
      return true;
    }

    method WithContainerEnvOverride(inputs: Inputs) returns (ok: bool)
      modifies this`containers
      ensures ok <==> inputs.certManager.Some? && IsOperand(name)
      ensures containers ==
              if ok && OverrideEnv(inputs, name) != [] && |old(containers)| == 1
              then [old(containers[0]).(env := Env.Merge(old(containers[0].env), OverrideEnv(inputs, name)))]
              else old(containers)
    {
      if inputs.certManager.None? || !IsOperand(name) {
        return false;
      }
      var overrideEnv := OverrideEnv(inputs, name);
      if |overrideEnv| > 0 && |containers| == 1 {
        MergeEnv(overrideEnv);
      }
      return true;
    }

    /** Adds the cloud credentials variable to the controller; fails when the secret or platform is unusable. */
    method WithCloudCredentials(infra: Infrastructure) returns (ok: bool)
      requires |containers| > 0
      modifies this`containers
      ensures ok <==> name != CONTROLLER || infra.cloudCredentialsMounted
      ensures containers ==
              if name == CONTROLLER && infra.cloudCredentialsMounted && infra.cloudEnv.Some?
              then old(containers)[0 := old(containers[0]).(env := old(containers[0].env) + [infra.cloudEnv.value])]
              else old(containers)
    {
      if name != CONTROLLER {
        return true;
      }
      if !infra.cloudCredentialsMounted {
        return false;
      }
      if infra.cloudEnv.Some? {
        containers := containers[0 := containers[0].(env := containers[0].env + [infra.cloudEnv.value])];
      }
      return true;
    }

    /** Strips cipher-suite flags when the honoured minimum is TLS 1.3, then merges the profile's flags. */
    method WithClusterTlsProfile(inputs: Inputs) returns (ok: bool)
      requires inputs.infrastructure.Some?
      modifies this`containers
      ensures ok <==> |old(containers)| == 1 && HonoredSpec(inputs).Ok?
      ensures containers ==
              if ok && HonoredSpec(inputs).value.Some? && IsOperand(name)
              then
                var spec := HonoredSpec(inputs).value.value;
                [old(containers[0]).(args := Merge(if spec.minTlsVersion == VERSION_TLS13 then Strip(old(containers[0].args), CipherKeys())
                                                   else old(containers[0].args), TlsArgs(inputs, name, spec)))]
              else old(containers)
    {
      if |containers| != 1 {
        return false;
      }
      var honored := HonoredSpec(inputs);
      if honored.Err? {
        return false;
      }
      if honored.value.None? || !IsOperand(name) {
        return true;
      }
      var effective := honored.value.value;
      var sourceArgs := containers[0].args;
      if effective.minTlsVersion == VERSION_TLS13 {
        var keys := ArgKeysSet(CERT_MANAGER_CIPHER_SUITE_ARG_KEYS);
        assert keys == CipherKeys();
        sourceArgs := StripArgsByKeys(sourceArgs, keys);
      }
      var merged := MergeContainerArgs(sourceArgs, TlsArgs(inputs, name, effective));
      containers := containers[0 := containers[0].(args := merged)];
      return true;
    }

    method WithOperandMetricsTls() returns (ok: bool)
      modifies this
      ensures ok <==> |old(containers)| == 1
      ensures containers ==
              if ok && IsOperand(name)
              then [old(containers[0]).(args := Merge(old(containers[0].args), MetricsArgs(name)))]
              else old(containers)
      ensures templateAnnotations ==
              if ok && IsOperand(name) then old(templateAnnotations)["prometheus.io/scheme" := "https"]
              else old(templateAnnotations)
    {
      if |containers| != 1 {
        return false;
      }
      if IsOperand(name) {
        MergeArgs(MetricsArgs(name));
        templateAnnotations := templateAnnotations["prometheus.io/scheme" := "https"];
      }
      return true;
    }

    method WithUnsupportedArgsOverride(inputs: Inputs) returns (ok: bool)
      requires |containers| > 0
      modifies this`containers
      ensures ok <==> inputs.unsupported.Some?
      ensures containers ==
              if UnsupportedArgs(inputs, name) != []
              then old(containers)[0 := old(containers[0]).(args := Merge(old(containers[0].args), UnsupportedArgs(inputs, name)))]
              else old(containers)
    {
      if inputs.unsupported.None? {
        return false;
      }
      var args := UnsupportedArgs(inputs, name);
      if |args| > 0 {
        MergeArgs(args);
      }
      return true;
    }
  }

  /** The first key of the map, in an arbitrary order, that is not supported stops the pipeline. */
  method ValidateKeys<V>(m: map<string, V>, supported: seq<string>) returns (ok: bool)
    ensures ok <==> m.Keys <= Elements(supported)
  {
    var keys := Env.EnumerateKeys(m);
    for i := 0 to |keys|
      invariant forall j :: 0 <= j < i ==> keys[j] in supported
    {
      if keys[i] !in supported {
        assert keys[i] in Elements(keys);
        return false;
      }
    }
    forall k | k in m
      ensures k in Elements(supported)
    {
      assert k in Elements(keys);
    }
    return true;
  }

  /** The override list of an operand is made of supported keys and passes the performance checks. */
  ghost predicate OverrideArgsAcceptable(inputs: Inputs, name: string) {
    && Parse(OverrideArgs(inputs, name)).Keys <= Elements(SupportedArgs(name))
    && (name == CONTROLLER && inputs.certManager.Some? && inputs.certManager.value.controller.Some? ==>
          inputs.performanceArgsValid(Parse(OverrideArgs(inputs, name))))
  }

  method ContainerArgsValid(inputs: Inputs, name: string) returns (ok: bool)
    ensures ok <==> inputs.certManager.Some? && IsOperand(name) && OverrideArgsAcceptable(inputs, name)
  {
    if inputs.certManager.None? || !IsOperand(name) {
      return false;
    }
    if Config(inputs.certManager.value, name).None? {
      return true;
    }
    var argMap := ParseArgMap(map[], OverrideArgs(inputs, name));
    assert argMap == Parse(OverrideArgs(inputs, name));
    ok := ValidateKeys(argMap, SupportedArgs(name));
    if ok && name == CONTROLLER {
      ok := inputs.performanceArgsValid(argMap);
    }
  }

  ghost predicate OverrideEnvAcceptable(inputs: Inputs, name: string) {
    Env.Parse(OverrideEnv(inputs, name)).Keys <= Elements(SupportedEnv(name))
  }

  method ContainerEnvValid(inputs: Inputs, name: string) returns (ok: bool)
    ensures ok <==> inputs.certManager.Some? && IsOperand(name) && OverrideEnvAcceptable(inputs, name)
  {
    if inputs.certManager.None? || !IsOperand(name) {
      return false;
    }
    if Config(inputs.certManager.value, name).None? {
      return true;
    }
    var envMap := Env.ParseEnvMap(map[], OverrideEnv(inputs, name));
    assert envMap == Env.Parse(OverrideEnv(inputs, name));
    ok := ValidateKeys(envMap, SupportedEnv(name));
  }

  ghost predicate EarlyHooksPass(inputs: Inputs, name: string) {
    && inputs.certManager.Some? && IsOperand(name) && inputs.podLabelsValid
    && OverrideArgsAcceptable(inputs, name) && OverrideEnvAcceptable(inputs, name)
    && inputs.resourcesValid && inputs.schedulingValid && inputs.trustedCaPresent
  }

  ghost predicate InfrastructureHooksPass(inputs: Inputs, name: string, containers: nat) {
    inputs.infrastructure.Some? ==>
      && (name == CONTROLLER ==> inputs.infrastructure.value.cloudCredentialsMounted)
      && containers == 1 && HonoredSpec(inputs).Ok?
  }

  ghost function SupportedFlags(name: string): set<string> {
    if name == "cert-manager" then
      {"--acme-http01-solver-nameservers",
       "--acme-http01-solver-resource-limits-cpu", "--acme-http01-solver-resource-limits-memory",
       "--acme-http01-solver-resource-request-cpu", "--acme-http01-solver-resource-request-memory",
       "--dns01-recursive-nameservers"}
      + {"--dns01-recursive-nameservers-only", "--v", "-V", "--metrics-listen-address", "--issuer-ambient-credentials", "--enable-certificate-owner-ref"}
      + {"--certificate-request-minimum-backoff-duration", "--concurrent-workers", "--kube-api-qps", "--kube-api-burst", "--max-concurrent-challenges"}
    else {"--v", "-V"}
  }

  lemma ElementsOfTwo<T>(a: T, b: T)
    ensures Elements([a, b]) == {a, b}
  {
    var s := [a, b];
    assert s[0] in s && s[1] in s;
  }

  lemma ElementsOfFive<T>(a: T, b: T, c: T, d: T, e: T)
    ensures Elements([a, b, c, d, e]) == {a, b, c, d, e}
  {
    var s := [a, b, c, d, e];
    assert s[0] in s && s[1] in s && s[2] in s && s[3] in s && s[4] in s;
  }

  lemma ElementsOfSix<T>(a: T, b: T, c: T, d: T, e: T, f: T)
    ensures Elements([a, b, c, d, e, f]) == {a, b, c, d, e, f}
  {
    var s := [a, b, c, d, e, f];
    assert s[0] in s && s[1] in s && s[2] in s && s[3] in s && s[4] in s && s[5] in s;
  }

  lemma ElementsConcat<T>(a: seq<T>, b: seq<T>)
    ensures Elements(a + b) == Elements(a) + Elements(b)
  {
  }

  lemma SupportedFlagsAre(name: string)
    requires IsOperand(name)
    ensures Elements(SupportedArgs(name)) == SupportedFlags(name)
  {
    if name == CONTROLLER {
      ControllerFlagsAre();
    } else {
      ElementsOfTwo("--v", "-V");
    }
  }

  lemma ControllerFlagsAre()
    ensures Elements(SupportedArgs("cert-manager")) == SupportedFlags("cert-manager")
  {
    var a := ["--acme-http01-solver-nameservers",
              "--acme-http01-solver-resource-limits-cpu", "--acme-http01-solver-resource-limits-memory",
              "--acme-http01-solver-resource-request-cpu", "--acme-http01-solver-resource-request-memory", "--dns01-recursive-nameservers"];
    var b := ["--dns01-recursive-nameservers-only", "--v", "-V", "--metrics-listen-address", "--issuer-ambient-credentials", "--enable-certificate-owner-ref"];
    var c := ["--certificate-request-minimum-backoff-duration", "--concurrent-workers", "--kube-api-qps", "--kube-api-burst", "--max-concurrent-challenges"];
    assert SupportedArgs("cert-manager") == a + b + c;
    hide Elements;
    ElementsConcat(a, b);
    ElementsConcat(a + b, c);
    ElementsOfSix("--acme-http01-solver-nameservers",
                  "--acme-http01-solver-resource-limits-cpu", "--acme-http01-solver-resource-limits-memory",
                  "--acme-http01-solver-resource-request-cpu", "--acme-http01-solver-resource-request-memory", "--dns01-recursive-nameservers");
    ElementsOfSix("--dns01-recursive-nameservers-only", "--v", "-V", "--metrics-listen-address", "--issuer-ambient-credentials", "--enable-certificate-owner-ref");
    ElementsOfFive("--certificate-request-minimum-backoff-duration", "--concurrent-workers", "--kube-api-qps", "--kube-api-burst", "--max-concurrent-challenges");
  }

  /** The override arguments of the operand's own section use supported keys only, and pass the performance checks. */
  ghost predicate OverridesAllowed(inputs: Inputs, name: string)
    requires inputs.certManager.Some?
  {
    && OwnOverrides(inputs.certManager.value, name).Keys <= SupportedFlags(name)
    && (name == "cert-manager" && inputs.certManager.value.controller.Some? ==>
          inputs.performanceArgsValid(Parse(inputs.certManager.value.controller.value.overrideArgs)))
  }

  /** Only the controller has supported variables. */
  ghost predicate EnvAllowed(certManager: CertManager, name: string) {
    && (name == "cert-manager" && certManager.controller.Some? ==>
          Env.Parse(certManager.controller.value.overrideEnv).Keys <= {"HTTP_PROXY", "HTTPS_PROXY", "NO_PROXY"})
    && (name == "cert-manager-webhook" && certManager.webhook.Some? ==> certManager.webhook.value.overrideEnv == [])
    && (name == "cert-manager-cainjector" && certManager.cainjector.Some? ==> certManager.cainjector.value.overrideEnv == [])
  }

  /** What all hooks of an operand with this many containers ask of the inputs. */
  ghost predicate HooksPass(inputs: Inputs, name: string, containers: nat) {
    && (name == "cert-manager" || name == "cert-manager-webhook" || name == "cert-manager-cainjector")
    && inputs.certManager.Some? && inputs.unsupported.Some? && containers == 1
    && inputs.podLabelsValid && inputs.resourcesValid && inputs.schedulingValid && inputs.trustedCaPresent
    && OverridesAllowed(inputs, name) && EnvAllowed(inputs.certManager.value, name)
    && (inputs.infrastructure.Some? ==>
          && (name == "cert-manager" ==> inputs.infrastructure.value.cloudCredentialsMounted)
          && inputs.infrastructure.value.apiServer.Some?
          && ResolveHonored(inputs.lib, Found(inputs.infrastructure.value.apiServer.value)).Ok?)
  }

  lemma HooksPassExactly(inputs: Inputs, name: string, containers: nat)
    ensures HooksPass(inputs, name, containers) <==>
            EarlyHooksPass(inputs, name) && InfrastructureHooksPass(inputs, name, containers) && containers == 1 && inputs.unsupported.Some?
  {
    hide SupportedArgs, EffectiveSpec;
    if inputs.certManager.Some? && IsOperand(name) {
      OverridesAllowedExactly(inputs, name);
      EnvAllowedExactly(inputs, name);
      hide OverridesAllowed, EnvAllowed, OverrideArgsAcceptable, OverrideEnvAcceptable;
    }
  }

  lemma OverridesAllowedExactly(inputs: Inputs, name: string)
    requires inputs.certManager.Some? && IsOperand(name)
    ensures OverridesAllowed(inputs, name) <==> OverrideArgsAcceptable(inputs, name)
  {
    hide SupportedArgs, SupportedFlags;
    SupportedFlagsAre(name);
    assert Parse([]) == map[];
  }

  lemma EnvAllowedExactly(inputs: Inputs, name: string)
    requires inputs.certManager.Some? && IsOperand(name)
    ensures EnvAllowed(inputs.certManager.value, name) <==> OverrideEnvAcceptable(inputs, name)
  {
    assert Elements(["HTTP_PROXY", "HTTPS_PROXY", "NO_PROXY"]) == {"HTTP_PROXY", "HTTPS_PROXY", "NO_PROXY"} by {
      var names := ["HTTP_PROXY", "HTTPS_PROXY", "NO_PROXY"];
      assert names[0] in names && names[1] in names && names[2] in names;
    }
    Env.NoKeysExactlyEmpty(OverrideEnv(inputs, name));
    assert Env.Parse([]) == map[];
  }

  /** A profile that is honoured is in force on every flag that break-glass does not set. */
  ghost predicate ProfileInForce(inputs: Inputs, name: string, final: ArgMap)
    requires inputs.unsupported.Some?
  {
    var honored, free := HonoredOn(inputs.lib, inputs.infrastructure), (key: string) => key !in OwnBreakGlass(inputs.unsupported.value, name);
    honored.Some? ==>
      var version, suites := honored.value.minTlsVersion, Join(inputs.lib.iana(honored.value.ciphers.Items()), ",");
      && (free("--metrics-tls-min-version") ==> Carries(final, "--metrics-tls-min-version", version))
      && (name == "cert-manager-webhook" && free("--tls-min-version") ==> Carries(final, "--tls-min-version", version))
      && (version == "VersionTLS13" ==>
            && (free("--tls-cipher-suites") ==> "--tls-cipher-suites" !in final)
            && (free("--metrics-tls-cipher-suites") ==> "--metrics-tls-cipher-suites" !in final))
      && (version != "VersionTLS13" ==>
            && (free("--metrics-tls-cipher-suites") ==> Carries(final, "--metrics-tls-cipher-suites", suites))
            && (name == "cert-manager-webhook" && free("--tls-cipher-suites") ==> Carries(final, "--tls-cipher-suites", suites)))
  }

  lemma KeysOfLayersDiffer()
    ensures var own := {"--metrics-dynamic-serving-ca-secret-namespace", "--metrics-dynamic-serving-ca-secret-name", "--metrics-dynamic-serving-dns-names"};
            && "--tls-min-version" !in own && "--metrics-tls-min-version" !in own
            && "--tls-cipher-suites" !in own && "--metrics-tls-cipher-suites" !in own
    ensures "--tls-min-version" != "--tls-cipher-suites" && "--metrics-tls-min-version" != "--metrics-tls-cipher-suites"
    ensures "--tls-min-version" != "--metrics-tls-cipher-suites" && "--metrics-tls-min-version" != "--tls-cipher-suites"
    ensures "--tls-min-version" != "--metrics-tls-min-version" && "--tls-cipher-suites" != "--metrics-tls-cipher-suites"
  {
    assert |"--tls-min-version"| == 17 && |"--tls-cipher-suites"| == 19;
    assert |"--metrics-tls-min-version"| == 25 && |"--metrics-tls-cipher-suites"| == 27;
    assert |"--metrics-dynamic-serving-dns-names"| > 30 && |"--metrics-dynamic-serving-ca-secret-name"| > 30;
    assert |"--metrics-dynamic-serving-ca-secret-namespace"| > 30;
  }

  /** A key that later layers leave alone keeps what it was. */
  lemma Beneath(m: ArgMap, later: ArgMap, last: ArgMap, key: string)
    requires key != "" && key !in later
    ensures key !in last ==> AgreeAt(Surviving(m + later + last), m, key)
  {
  }

  lemma ProfileFlagsAt(lib: Library, spec: Spec, name: string, own: ArgMap)
    ensures var version, suites := spec.minTlsVersion, Join(lib.iana(spec.ciphers.Items()), ",");
            var m := WithProfile(lib, Some(spec), name, own);
            && Carries(m, "--metrics-tls-min-version", version)
            && (name == "cert-manager-webhook" ==> Carries(m, "--tls-min-version", version))
            && (version == "VersionTLS13" ==> "--tls-cipher-suites" !in m && "--metrics-tls-cipher-suites" !in m)
            && (version != "VersionTLS13" ==>
                  Carries(m, "--metrics-tls-cipher-suites", suites) && (name == "cert-manager-webhook" ==> Carries(m, "--tls-cipher-suites", suites)))
  {
    hide Join;
    KeysOfLayersDiffer();
  }

  lemma MetricsFlagsApart(name: string)
    ensures var m := MetricsFlags(name);
            && "--tls-min-version" !in m && "--metrics-tls-min-version" !in m
            && "--tls-cipher-suites" !in m && "--metrics-tls-cipher-suites" !in m
  {
    KeysOfLayersDiffer();
  }

  lemma ReferenceProfileInForce(inputs: Inputs, name: string, manifest: seq<string>)
    requires inputs.certManager.Some? && inputs.unsupported.Some?
    ensures ProfileInForce(inputs, name, Surviving(ReferenceArgs(inputs, name, manifest)))
  {
    hide UnprofiledArgs, WithProfile, OwnBreakGlass, HonoredOn, Join, Surviving, MetricsFlags;
    var honored := HonoredOn(inputs.lib, inputs.infrastructure);
    if honored.Some? {
      var m := WithProfile(inputs.lib, honored, name, UnprofiledArgs(inputs, name, manifest));
      ProfileFlagsAt(inputs.lib, honored.value, name, UnprofiledArgs(inputs, name, manifest));
      MetricsFlagsApart(name);
      var last := OwnBreakGlass(inputs.unsupported.value, name);
      Beneath(m, MetricsFlags(name), last, "--tls-min-version");
      Beneath(m, MetricsFlags(name), last, "--metrics-tls-min-version");
      Beneath(m, MetricsFlags(name), last, "--tls-cipher-suites");
      Beneath(m, MetricsFlags(name), last, "--metrics-tls-cipher-suites");
    }
  }

  /**
   The registered hooks in order, up to the first error. The contract says exactly when all
   of them pass. On success the parsed arguments and environment are the references, for every
   manifest; the only pair that printing cannot carry is ("", "").
   */
  method RunHooks(d: Deployment, inputs: Inputs) returns (ok: bool)
    requires |d.containers| > 0
    modifies d
    ensures ok <==> HooksPass(inputs, d.name, |old(d.containers)|)
    ensures ok ==> |d.containers| == 1 && d.containers[0].image == inputs.relatedImage(old(d.containers)[0].image)
    ensures ok ==> Parse(d.containers[0].args) == Surviving(ReferenceArgs(inputs, d.name, old(d.containers)[0].args))
    ensures ok ==> Env.Parse(d.containers[0].env) == ReferenceEnv(inputs, d.name, old(d.containers)[0].env)
    ensures ok ==> d.templateAnnotations == old(d.templateAnnotations)["prometheus.io/scheme" := "https"]
    ensures ok ==> ProfileInForce(inputs, d.name, Parse(d.containers[0].args))
    // Break-glass arguments win on every key, but for the pair ("", "").
    ensures ok ==> BreakGlassInForce(OwnBreakGlass(inputs.unsupported.value, d.name), Parse(d.containers[0].args))
    // Overrides change supported keys only: on all others the result is that of an empty override list.
    ensures ok ==> forall key :: key !in SupportedFlags(d.name) ==>
                                   AgreeAt(Parse(d.containers[0].args), Surviving(FinalArgs(inputs, d.name, old(d.containers)[0].args, [])), key)
  {
    ghost var manifest := d.containers[0];
    ghost var name := d.name;
    HooksPassExactly(inputs, name, |d.containers|);
    hide HooksPass, ReferenceArgs, ReferenceEnv, FinalEnv, ProfileInForce, BreakGlassInForce, SupportedArgs, AgreeAt, Surviving,
      OverrideArgsAcceptable, OverrideEnvAcceptable, OverrideArgs, OverrideEnv, SolverArgs, LogLevelArgs, MetricsArgs, UnsupportedArgs,
      OwnBreakGlass, Env.Parse, Parse;
    ok := ArgsAndEnvHooks(d, inputs);
    if !ok {
      return;
    }
    ghost var m := BeforeTls(inputs, name, manifest.args, OverrideArgs(inputs, name));
    ok := InfrastructureHooks(d, inputs, m);
    if !ok {
      return;
    }
    ok := ClosingHooks(d, inputs, WithTls(inputs, name, m));
    if ok {
      EnvFollows(inputs, name, manifest.env);
      FinalOverrides(inputs, name, manifest.args, d.containers[0].args);
      FinalArgsAreReference(inputs, name, manifest.args);
      FinalEnvIsReference(inputs, name, manifest.env);
      ReferenceProfileInForce(inputs, name, manifest.args);
    }
  }

  lemma EnvFollows(inputs: Inputs, name: string, manifest: seq<Env.EnvVar>)
    ensures FinalEnv(inputs, name, manifest)
            == WithCloudEnv(inputs, name, Env.Parse(manifest) + Env.Parse(inputs.proxyVars) + Env.Parse(OverrideEnv(inputs, name)))
  {
  }

  /** Where break-glass arguments end up: in force on every key but where they set "" to "". */
  ghost predicate BreakGlassInForce(unsupported: ArgMap, final: ArgMap) {
    forall key :: key in unsupported ==> (Carries(final, key, unsupported[key]) <==> !(key == "" && unsupported[key] == ""))
  }

  lemma FinalOverrides(inputs: Inputs, name: string, manifest: seq<string>, args: seq<string>)
    requires OverrideArgsAcceptable(inputs, name) && IsOperand(name) && inputs.certManager.Some? && inputs.unsupported.Some?
    requires Parse(args) == Surviving(FinalArgs(inputs, name, manifest, OverrideArgs(inputs, name)))
    ensures BreakGlassInForce(OwnBreakGlass(inputs.unsupported.value, name), Parse(args))
    ensures forall key :: key !in SupportedFlags(name) ==>
                            AgreeAt(Parse(args), Surviving(FinalArgs(inputs, name, manifest, [])), key)
  {
    hide AgreeAt, Carries, Surviving, FinalArgs, OverrideArgs, SupportedArgs, UnsupportedArgs, OwnBreakGlass;
    assert Parse([]) == map[];
    hide Parse;
    SectionLayers(inputs, name);
    forall key | key in Parse(UnsupportedArgs(inputs, name))
      ensures var value := Parse(UnsupportedArgs(inputs, name))[key]; Carries(Parse(args), key, value) <==> !(key == "" && value == "")
    {
      UnsupportedWins(inputs, name, manifest, OverrideArgs(inputs, name), key);
    }
    SupportedFlagsAre(name);
    hide SupportedFlags;
    forall key | key !in SupportedFlags(name)
      ensures AgreeAt(Parse(args), Surviving(FinalArgs(inputs, name, manifest, [])), key)
    {
      assert key !in Elements(SupportedArgs(name));
      OverridesOnlySupported(inputs, name, manifest, OverrideArgs(inputs, name), [], key);
    }
  }

  /** Registered only on clusters that have the config.openshift.io informers. */
  method InfrastructureHooks(d: Deployment, inputs: Inputs, ghost m: ArgMap) returns (ok: bool)
    requires |d.containers| > 0 && IsOperand(d.name)
    requires |d.containers| == 1 ==> Tracks(d.containers[0].args, m)
    modifies d`containers
    ensures |d.containers| == |old(d.containers)|
    ensures ok <==> InfrastructureHooksPass(inputs, d.name, |old(d.containers)|)
    ensures ok && |d.containers| == 1 ==> Tracks(d.containers[0].args, WithTls(inputs, d.name, m))
    ensures ok && |d.containers| == 1 ==>
              Env.Parse(d.containers[0].env) == WithCloudEnv(inputs, d.name, Env.Parse(old(d.containers)[0].env))
    ensures d.containers[0].image == old(d.containers)[0].image
  {
    hide Parse, Env.Parse, TlsArgs, Merge;
    if inputs.infrastructure.None? {
      return true;
    }
    ghost var first := d.containers[0];
    ok := d.WithCloudCredentials(inputs.infrastructure.value);
    if !ok {
      return;
    }
    if inputs.infrastructure.value.cloudEnv.Some? {
      Env.ParseAppend(first.env, inputs.infrastructure.value.cloudEnv.value);
    }
    ok := d.WithClusterTlsProfile(inputs);
    if ok {
      TracksTls(inputs, d.name, first.args, d.containers[0].args, m);
    }
  }

  method ClosingHooks(d: Deployment, inputs: Inputs, ghost m: ArgMap) returns (ok: bool)
    requires |d.containers| > 0 && IsOperand(d.name)
    requires |d.containers| == 1 ==> Tracks(d.containers[0].args, m)
    modifies d
    ensures ok <==> |old(d.containers)| == 1 && inputs.unsupported.Some?
    ensures |d.containers| == |old(d.containers)|
    ensures ok ==> d.containers[0].env == old(d.containers)[0].env && d.containers[0].image == old(d.containers)[0].image
    ensures ok ==> d.templateAnnotations == old(d.templateAnnotations)["prometheus.io/scheme" := "https"]
    ensures ok ==> Parse(d.containers[0].args)
                   == Surviving(m + Parse(MetricsArgs(d.name)) + Parse(UnsupportedArgs(inputs, d.name)))
  {
    ghost var args := d.containers[0].args;
    ok := d.WithOperandMetricsTls();
    if !ok {
      return;
    }
    TracksTwice(args, m, MetricsArgs(d.name), UnsupportedArgs(inputs, d.name));
    ok := d.WithUnsupportedArgsOverride(inputs);
  }

  /** The first of the last two merges always happens, so the result has no vanishing pair left. */
  lemma TracksTwice(args: seq<string>, m: ArgMap, first: seq<string>, second: seq<string>)
    requires Tracks(args, m)
    ensures Parse(Merge(Merge(args, first), second)) == Surviving(m + Parse(first) + Parse(second))
    ensures second == [] ==> Parse(Merge(args, first)) == Surviving(m + Parse(first) + Parse(second))
  {
    hide Merge, Surviving, Parse;
    TracksMerge(args, m, first);
    TracksMerge(Merge(args, first), m + Parse(first), second);
    if second == [] {
      EmptyLayer(m + Parse(first), second);
    }
  }

  lemma TracksTls(inputs: Inputs, name: string, before: seq<string>, after: seq<string>, m: ArgMap)
    requires Tracks(before, m) && HonoredSpec(inputs).Ok? && IsOperand(name)
    requires after == match HonoredSpec(inputs).value
                      case None => before
                      case Some(spec) =>
                        Merge(if spec.minTlsVersion == VERSION_TLS13 then Strip(before, CipherKeys()) else before,
                              TlsArgs(inputs, name, spec))
    ensures Tracks(after, WithTls(inputs, name, m))
  {
    if HonoredSpec(inputs).value.Some? {
      var spec := HonoredSpec(inputs).value.value;
      if spec.minTlsVersion == VERSION_TLS13 {
        TracksStrip(before, m, CipherKeys());
        TracksMerge(Strip(before, CipherKeys()), m - CipherKeys(), TlsArgs(inputs, name, spec));
      } else {
        TracksMerge(before, m, TlsArgs(inputs, name, spec));
      }
    }
  }

  /** The hooks registered before the infrastructure ones, from the image override to the bound token. */
  method ArgsAndEnvHooks(d: Deployment, inputs: Inputs) returns (ok: bool)
    requires |d.containers| > 0
    modifies d`containers
    ensures |d.containers| == |old(d.containers)|
    ensures ok <==> EarlyHooksPass(inputs, d.name)
    ensures ok && |d.containers| == 1 ==>
              && Tracks(d.containers[0].args, BeforeTls(inputs, d.name, old(d.containers)[0].args, OverrideArgs(inputs, d.name)))
              && Env.Parse(d.containers[0].env)
                 == Env.Parse(old(d.containers)[0].env) + Env.Parse(inputs.proxyVars) + Env.Parse(OverrideEnv(inputs, d.name))
    ensures d.containers[0].image == inputs.relatedImage(old(d.containers)[0].image)
  {
    hide OverrideArgsAcceptable, OverrideEnvAcceptable, OverrideArgs, OverrideEnv, SolverArgs, LogLevelArgs, Env.Parse, Parse;
    ImageAndLogLevelHooks(d, inputs);
    if inputs.certManager.None? || !IsOperand(d.name) || !inputs.podLabelsValid {
      return false;
    }
    ok := OverrideArgsHooks(d, inputs, Parse(old(d.containers)[0].args) + Parse(SolverArgs(inputs, d.name)) + Parse(LogLevelArgs(inputs)));
    if !ok {
      return;
    }
    ok := EnvHooks(d, inputs);
    ok := ok && inputs.resourcesValid && inputs.schedulingValid && inputs.trustedCaPresent;
  }

  method ImageAndLogLevelHooks(d: Deployment, inputs: Inputs)
    requires |d.containers| > 0
    modifies d`containers
    ensures |d.containers| == |old(d.containers)|
    ensures d.containers[0].env == old(d.containers)[0].env
    ensures d.containers[0].image == inputs.relatedImage(old(d.containers)[0].image)
    ensures |d.containers| == 1 ==>
              Tracks(d.containers[0].args,
                     Parse(old(d.containers)[0].args) + Parse(SolverArgs(inputs, d.name)) + Parse(LogLevelArgs(inputs)))
  {
    ghost var solver, verbosity := SolverArgs(inputs, d.name), LogLevelArgs(inputs);
    ghost var m := Parse(d.containers[0].args);
    ghost var args := d.containers[0].args;
    d.WithOperandImageOverride(inputs);
    TracksLayer(args, m, solver);
    m := m + Parse(solver);

    args := d.containers[0].args;
    d.WithLogLevel(inputs);
    if |d.containers| == 1 {
      TracksLayer(args, m, verbosity);
    }
  }

  method OverrideArgsHooks(d: Deployment, inputs: Inputs, ghost m: ArgMap) returns (ok: bool)
    requires |d.containers| > 0
    requires |d.containers| == 1 ==> Tracks(d.containers[0].args, m)
    modifies d`containers
    ensures |d.containers| == |old(d.containers)|
    ensures d.containers[0].env == old(d.containers)[0].env && d.containers[0].image == old(d.containers)[0].image
    ensures ok <==> inputs.certManager.Some? && IsOperand(d.name) && OverrideArgsAcceptable(inputs, d.name)
    ensures ok && |d.containers| == 1 ==> Tracks(d.containers[0].args, m + Parse(OverrideArgs(inputs, d.name)))
  {
    ghost var args := d.containers[0].args;
    ok := d.WithContainerArgsOverride(inputs);
    if !ok {
      return;
    }
    if |d.containers| == 1 {
      TracksLayer(args, m, OverrideArgs(inputs, d.name));
    }
    ok := ContainerArgsValid(inputs, d.name);
  }

  method EnvHooks(d: Deployment, inputs: Inputs) returns (ok: bool)
    requires |d.containers| > 0 && IsOperand(d.name) && inputs.certManager.Some?
    modifies d`containers
    ensures |d.containers| == |old(d.containers)|
    ensures d.containers[0].args == old(d.containers)[0].args && d.containers[0].image == old(d.containers)[0].image
    ensures ok <==> OverrideEnvAcceptable(inputs, d.name)
    ensures ok && |d.containers| == 1 ==>
              Env.Parse(d.containers[0].env)
              == Env.Parse(old(d.containers)[0].env) + Env.Parse(inputs.proxyVars) + Env.Parse(OverrideEnv(inputs, d.name))
  {
    hide OverrideEnvAcceptable, OverrideEnv, Env.Parse, Env.Merge;
    Env.ParseMerge(d.containers[0].env, inputs.proxyVars);
    d.MergeEnv(inputs.proxyVars);
    Env.ParseMerge(d.containers[0].env, OverrideEnv(inputs, d.name));
    Env.EmptyLayer(d.containers[0].env, OverrideEnv(inputs, d.name));
    ok := d.WithContainerEnvOverride(inputs);
    ok := ContainerEnvValid(inputs, d.name);
  }
}
