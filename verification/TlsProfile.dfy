/**
 pkg/tlsprofile: resolving the cluster TLS profile into operand flags, and the filter
 that decides which changes of the cluster APIServer object matter.
 */
module TlsProfile {
  import opened Outcomes
  import opened Strings
  import opened ContainerArgs

  const VERSION_TLS13 := "VersionTLS13"

  const TLS_MIN_VERSION := "--tls-min-version"
  const TLS_CIPHER_SUITES := "--tls-cipher-suites"
  const METRICS_TLS_MIN_VERSION := "--metrics-tls-min-version"
  const METRICS_TLS_CIPHER_SUITES := "--metrics-tls-cipher-suites"

  const CERT_MANAGER_CIPHER_SUITE_ARG_KEYS := [TLS_CIPHER_SUITES, METRICS_TLS_CIPHER_SUITES]
  const TRUST_MANAGER_CIPHER_SUITE_ARG_KEYS := [TLS_CIPHER_SUITES]

  /** A Go slice: nil and empty are distinct values that semantic equality identifies. */
  datatype Slice = NilSlice | Slice(elements: seq<string>) {
    function Items(): seq<string> {
      match this
      case NilSlice => []
      case Slice(elements) => elements
    }
  }

  datatype Spec = Spec(ciphers: Slice, minTlsVersion: string)

  /** `otherSettings` stands for the old, intermediate and modern pointers, which are compared but never resolved. */
  datatype Profile = Profile(kind: string, custom: Option<Spec>, otherSettings: string)

  datatype ApiServer = ApiServer(tlsAdherence: string, tlsSecurityProfile: Option<Profile>, unrelated: string)

  datatype Fetched = Found(apiServer: ApiServer) | NotFound | FetchFailed

  /** The vendored library: built-in profiles and the OpenSSL-to-IANA cipher names. */
  datatype Library = Library(oldProfile: Spec, intermediate: Spec, modern: Spec, iana: seq<string> -> seq<string>)

  predicate ShouldHonor(adherence: string) {
    adherence != "" && adherence != "LegacyAdheringComponentsOnly"
  }

  function EffectiveSpec(lib: Library, profile: Option<Profile>): Result<Spec, string> {
    if profile.None? || profile.value.kind == "" then Ok(lib.intermediate)
    else if profile.value.kind == "Old" then Ok(lib.oldProfile)
    else if profile.value.kind == "Intermediate" then Ok(lib.intermediate)
    else if profile.value.kind == "Modern" then Ok(lib.modern)
    else if profile.value.kind == "Custom" then
      if profile.value.custom.None? then Err("custom TLS profile is missing custom settings")
      else Ok(profile.value.custom.value)
    else Err("unrecognized TLSSecurityProfile.Type")
  }

  /** `Ok(None)` means that existing TLS settings are left alone. */
  function ResolveHonored(lib: Library, fetched: Fetched): Result<Option<Spec>, string> {
    match fetched
    case NotFound => Ok(None)
    case FetchFailed => Err("failed to get apiserver")
    case Found(apiServer) =>
      if !ShouldHonor(apiServer.tlsAdherence) then Ok(None)
      else
        match EffectiveSpec(lib, apiServer.tlsSecurityProfile)
        case Ok(spec) => Ok(Some(spec))
        case Err(error) => Err(error)
  }

  function Flag(key: string, value: string): string {
    key + "=" + value
  }

  function JoinedCiphers(lib: Library, spec: Spec): string {
    Join(lib.iana(spec.ciphers.Items()), ",")
  }

  function CertManagerWebhookArgs(lib: Library, spec: Spec): seq<string> {
    if spec.minTlsVersion == VERSION_TLS13 then
      [Flag(TLS_MIN_VERSION, spec.minTlsVersion), Flag(METRICS_TLS_MIN_VERSION, spec.minTlsVersion)]
    else
      [Flag(TLS_MIN_VERSION, spec.minTlsVersion), Flag(TLS_CIPHER_SUITES, JoinedCiphers(lib, spec)),
       Flag(METRICS_TLS_MIN_VERSION, spec.minTlsVersion), Flag(METRICS_TLS_CIPHER_SUITES, JoinedCiphers(lib, spec))]
  }

  function CertManagerOperandMetricsArgs(lib: Library, spec: Spec): seq<string> {
    if spec.minTlsVersion == VERSION_TLS13 then [Flag(METRICS_TLS_MIN_VERSION, spec.minTlsVersion)]
    else
      [Flag(METRICS_TLS_MIN_VERSION, spec.minTlsVersion), Flag(METRICS_TLS_CIPHER_SUITES, JoinedCiphers(lib, spec))]
  }

  function TrustManagerWebhookArgs(lib: Library, spec: Spec): seq<string> {
    [Flag(TLS_MIN_VERSION, spec.minTlsVersion)] +
    if spec.minTlsVersion != VERSION_TLS13 then [Flag(TLS_CIPHER_SUITES, JoinedCiphers(lib, spec))] else []
  }

  /** The cipher-suite flags of a source list go when the minimum version is 1.3; the others stay. */
  function Purged(args: seq<string>, spec: Spec, cipherKeys: seq<string>): seq<string> {
    if spec.minTlsVersion == VERSION_TLS13 then Strip(args, set k | k in cipherKeys) else args
  }

  lemma FlagParses(key: string, value: string)
    requires '=' !in key
    ensures Key(Flag(key, value)) == key && Value(Flag(key, value)) == value
    ensures Flag(key, value) != ""
  {
    BeforeAppend(key, '=', value);
  }

  lemma FlagEntry(key: string, value: string)
    requires '=' !in key
    ensures Entry(Flag(key, value)) == map[key := value]
  {
    FlagParses(key, value);
  }

  /** A list of one, two or four flags parses to the map of its pairs. */
  lemma ParseOne(a: string, args: seq<string>)
    requires args == [a]
    ensures Parse(args) == Entry(a)
  {
    assert args[..0] == [];
  }

  lemma ParseTwo(a: string, b: string, args: seq<string>)
    requires args == [a, b]
    ensures Parse(args) == Entry(a) + Entry(b)
  {
    ParseOne(a, args[..1]);
  }

  lemma ParseFour(a: string, b: string, c: string, d: string, args: seq<string>)
    requires args == [a, b, c, d]
    ensures Parse(args) == Entry(a) + Entry(b) + Entry(c) + Entry(d)
  {
    assert args[..3][..2] == args[..2];
    ParseTwo(a, b, args[..2]);
  }

  /** The four flags of a profile, as entries. */
  lemma ProfileEntries(version: string, suites: string)
    ensures Entry(Flag(TLS_MIN_VERSION, version)) == map["--tls-min-version" := version]
    ensures Entry(Flag(TLS_CIPHER_SUITES, suites)) == map["--tls-cipher-suites" := suites]
    ensures Entry(Flag(METRICS_TLS_MIN_VERSION, version)) == map["--metrics-tls-min-version" := version]
    ensures Entry(Flag(METRICS_TLS_CIPHER_SUITES, suites)) == map["--metrics-tls-cipher-suites" := suites]
  {
    hide Entry, Flag;
    CipherKeysAreKeys();
    FlagEntry(TLS_MIN_VERSION, version);
    FlagEntry(TLS_CIPHER_SUITES, suites);
    FlagEntry(METRICS_TLS_MIN_VERSION, version);
    FlagEntry(METRICS_TLS_CIPHER_SUITES, suites);
  }

  /** The cert-manager webhook gets the profile on both listeners; cipher suites only below TLS 1.3. */
  lemma WebhookFlags(lib: Library, spec: Spec)
    ensures var version, suites := spec.minTlsVersion, Join(lib.iana(spec.ciphers.Items()), ",");
            Parse(CertManagerWebhookArgs(lib, spec)) ==
            if version == "VersionTLS13" then map["--tls-min-version" := version, "--metrics-tls-min-version" := version]
            else map["--tls-min-version" := version, "--tls-cipher-suites" := suites,
                     "--metrics-tls-min-version" := version, "--metrics-tls-cipher-suites" := suites]
  {
    hide Parse, Flag, Entry, Join;
    var version, suites := spec.minTlsVersion, JoinedCiphers(lib, spec);
    ProfileEntries(version, suites);
    if version == VERSION_TLS13 {
      ParseTwo(Flag(TLS_MIN_VERSION, version), Flag(METRICS_TLS_MIN_VERSION, version), CertManagerWebhookArgs(lib, spec));
    } else {
      ParseFour(Flag(TLS_MIN_VERSION, version), Flag(TLS_CIPHER_SUITES, suites), Flag(METRICS_TLS_MIN_VERSION, version),
                Flag(METRICS_TLS_CIPHER_SUITES, suites), CertManagerWebhookArgs(lib, spec));
    }
  }

  /** The controller and the cainjector get it on the metrics listener. */
  lemma OperandMetricsFlags(lib: Library, spec: Spec)
    ensures var version, suites := spec.minTlsVersion, Join(lib.iana(spec.ciphers.Items()), ",");
            Parse(CertManagerOperandMetricsArgs(lib, spec)) ==
            if version == "VersionTLS13" then map["--metrics-tls-min-version" := version]
            else map["--metrics-tls-min-version" := version, "--metrics-tls-cipher-suites" := suites]
  {
    hide Parse, Flag, Entry, Join;
    var version, suites := spec.minTlsVersion, JoinedCiphers(lib, spec);
    ProfileEntries(version, suites);
    if version == VERSION_TLS13 {
      ParseOne(Flag(METRICS_TLS_MIN_VERSION, version), CertManagerOperandMetricsArgs(lib, spec));
    } else {
      ParseTwo(Flag(METRICS_TLS_MIN_VERSION, version), Flag(METRICS_TLS_CIPHER_SUITES, suites), CertManagerOperandMetricsArgs(lib, spec));
    }
  }

  /** trust-manager gets it on the webhook. */
  lemma TrustManagerFlags(lib: Library, spec: Spec)
    ensures var version, suites := spec.minTlsVersion, Join(lib.iana(spec.ciphers.Items()), ",");
            Parse(TrustManagerWebhookArgs(lib, spec)) ==
            if version == "VersionTLS13" then map["--tls-min-version" := version]
            else map["--tls-min-version" := version, "--tls-cipher-suites" := suites]
  {
    hide Parse, Flag, Entry, Join;
    var version, suites := spec.minTlsVersion, JoinedCiphers(lib, spec);
    ProfileEntries(version, suites);
    if version == VERSION_TLS13 {
      ParseOne(Flag(TLS_MIN_VERSION, version), TrustManagerWebhookArgs(lib, spec));
    } else {
      ParseTwo(Flag(TLS_MIN_VERSION, version), Flag(TLS_CIPHER_SUITES, suites), TrustManagerWebhookArgs(lib, spec));
    }
  }

  /** A list whose keys avoid `keys` contributes none of them. */
  lemma KeysAvoided(args: seq<string>, keys: set<string>)
    requires forall i :: 0 <= i < |args| ==> Key(args[i]) !in keys
    ensures Parse(args).Keys !! keys
  {
    ParsePoints(args);
    forall k | k in Parse(args)
      ensures k !in keys
    {
      var i :| 0 <= i < |args| && Writes(args[i], k, Parse(args)[k]);
    }
  }

  lemma CipherKeysAreKeys()
    ensures '=' !in TLS_MIN_VERSION && '=' !in METRICS_TLS_MIN_VERSION
    ensures '=' !in TLS_CIPHER_SUITES && '=' !in METRICS_TLS_CIPHER_SUITES
    ensures TLS_MIN_VERSION != TLS_CIPHER_SUITES && TLS_MIN_VERSION != METRICS_TLS_CIPHER_SUITES
    ensures METRICS_TLS_MIN_VERSION != TLS_CIPHER_SUITES && METRICS_TLS_MIN_VERSION != METRICS_TLS_CIPHER_SUITES
  {
    assert TLS_MIN_VERSION[6] != TLS_CIPHER_SUITES[6];
    assert METRICS_TLS_MIN_VERSION[2] != TLS_CIPHER_SUITES[2];
    assert METRICS_TLS_MIN_VERSION[14] != METRICS_TLS_CIPHER_SUITES[14];
    assert TLS_MIN_VERSION[2] != METRICS_TLS_CIPHER_SUITES[2];
  }

  /** At TLS 1.3 no builder emits a cipher-suite flag. */
  lemma NoCipherFlagsAtTls13(lib: Library, spec: Spec)
    requires spec.minTlsVersion == VERSION_TLS13
    ensures Parse(CertManagerWebhookArgs(lib, spec)).Keys !! Elements(CERT_MANAGER_CIPHER_SUITE_ARG_KEYS)
    ensures Parse(CertManagerOperandMetricsArgs(lib, spec)).Keys !! Elements(CERT_MANAGER_CIPHER_SUITE_ARG_KEYS)
    ensures Parse(TrustManagerWebhookArgs(lib, spec)).Keys !! Elements(TRUST_MANAGER_CIPHER_SUITE_ARG_KEYS)
  {
    CipherKeysAreKeys();
    FlagParses(TLS_MIN_VERSION, spec.minTlsVersion);
    FlagParses(METRICS_TLS_MIN_VERSION, spec.minTlsVersion);
    KeysAvoided(CertManagerWebhookArgs(lib, spec), Elements(CERT_MANAGER_CIPHER_SUITE_ARG_KEYS));
    KeysAvoided(CertManagerOperandMetricsArgs(lib, spec), Elements(CERT_MANAGER_CIPHER_SUITE_ARG_KEYS));
    KeysAvoided(TrustManagerWebhookArgs(lib, spec), Elements(TRUST_MANAGER_CIPHER_SUITE_ARG_KEYS));
  }

  /**
   Stripping and then merging leaves no cipher-suite key behind at TLS 1.3, however often
   the source list repeats one.
   */
  lemma NoCipherSurvives(lib: Library, spec: Spec, args: seq<string>, extra: seq<string>, cipherKeys: seq<string>)
    requires spec.minTlsVersion == VERSION_TLS13
    requires Parse(extra).Keys !! Elements(cipherKeys)
    ensures Parse(Merge(Purged(args, spec, cipherKeys), extra)).Keys !! Elements(cipherKeys)
  {
    ParseMerge(Purged(args, spec, cipherKeys), extra);
    ParseStrip(args, set k | k in cipherKeys);
  }

  /** Which profile is honoured: none without adherence, the intermediate one by default, and a custom one only if it is given. */
  lemma HonoredProfile(lib: Library, apiServer: ApiServer)
    ensures var r, profile := ResolveHonored(lib, Found(apiServer)), apiServer.tlsSecurityProfile;
            && (r == Ok(None) <==> apiServer.tlsAdherence == "" || apiServer.tlsAdherence == "LegacyAdheringComponentsOnly")
            && (r != Ok(None) ==>
                  && (profile.None? ==> r == Ok(Some(lib.intermediate)))
                  && (profile.Some? && profile.value.kind == "" ==> r == Ok(Some(lib.intermediate)))
                  && (profile.Some? && profile.value.kind == "Old" ==> r == Ok(Some(lib.oldProfile)))
                  && (profile.Some? && profile.value.kind == "Intermediate" ==> r == Ok(Some(lib.intermediate)))
                  && (profile.Some? && profile.value.kind == "Modern" ==> r == Ok(Some(lib.modern)))
                  && (profile.Some? && profile.value.kind == "Custom" ==> if profile.value.custom.Some? then r == Ok(profile.value.custom) else r.Err?)
                  && (profile.Some? && profile.value.kind !in {"", "Old", "Intermediate", "Modern", "Custom"} ==> r.Err?))
    ensures ResolveHonored(lib, NotFound) == Ok(None) && ResolveHonored(lib, FetchFailed).Err?
  {
    assert "Old"[0] != "Modern"[0] && "Custom"[0] != "Modern"[0];
  }

  // ----- The APIServer update filter -----

  predicate SemanticallyEqualSpecs(a: Spec, b: Spec) {
    a.minTlsVersion == b.minTlsVersion && a.ciphers.Items() == b.ciphers.Items()
  }

  /** `equality.Semantic.DeepEqual` on profile pointers: nil and empty slices are equal, nil and non-nil pointers are not. */
  predicate SemanticallyEqual(a: Option<Profile>, b: Option<Profile>) {
    match (a, b)
    case (None, None) => true
    case (Some(p), Some(q)) =>
      && p.kind == q.kind && p.otherSettings == q.otherSettings
      && p.custom.Some? == q.custom.Some?
      && (p.custom.Some? && q.custom.Some? ==> SemanticallyEqualSpecs(p.custom.value, q.custom.value))
    case _ => false
  }

  predicate TlsConfigChanged(before: Option<ApiServer>, after: Option<ApiServer>) {
    if before.None? || after.None? then before.Some? || after.Some?
    else
      || before.value.tlsAdherence != after.value.tlsAdherence
      || !SemanticallyEqual(before.value.tlsSecurityProfile, after.value.tlsSecurityProfile)
  }

  /** A profile with nil slices made empty, and nothing else changed. */
  function Normalized(profile: Option<Profile>): Option<Profile> {
    match profile
    case Some(Profile(kind, Some(Spec(ciphers, version)), other)) => Some(Profile(kind, Some(Spec(Slice(ciphers.Items()), version)), other))
    case _ => profile
  }

  /** What the filter drops: exactly the updates that keep adherence and, up to nil slices, the profile. Appearing and disappearing count. */
  lemma FilterExactly(before: Option<ApiServer>, after: Option<ApiServer>)
    ensures !TlsConfigChanged(before, after) <==>
            && before.Some? == after.Some?
            && (before.Some? ==> && before.value.tlsAdherence == after.value.tlsAdherence
                                 && Normalized(before.value.tlsSecurityProfile) == Normalized(after.value.tlsSecurityProfile))
  {
  }

  /** The trust-manager arguments a fetched APIServer object leads to, or the failure. */
  ghost function TrustManagerArgs(lib: Library, fetched: Fetched, args: seq<string>): Result<seq<string>, string> {
    match ResolveHonored(lib, fetched)
    case Err(error) => Err(error)
    case Ok(None) => Ok(args)
    case Ok(Some(spec)) =>
      Ok(Merge(Purged(args, spec, TRUST_MANAGER_CIPHER_SUITE_ARG_KEYS), TrustManagerWebhookArgs(lib, spec)))
  }

  /** The same failure, both left alone, or profiles that the API machinery calls equal. */
  predicate SameResolution(p: Result<Option<Spec>, string>, q: Result<Option<Spec>, string>) {
    match (p, q)
    case (Err(e), Err(f)) => e == f
    case (Ok(None), Ok(None)) => true
    case (Ok(Some(s)), Ok(Some(t))) => SemanticallyEqualSpecs(s, t)
    case _ => false
  }

  /** An update the filter drops changes neither the resolution nor, from any source arguments, what a reconcile would write. */
  lemma FilterIsSound(lib: Library, before: ApiServer, after: ApiServer, args: seq<string>)
    requires !TlsConfigChanged(Some(before), Some(after))
    ensures SameResolution(ResolveHonored(lib, Found(before)), ResolveHonored(lib, Found(after)))
    ensures TrustManagerArgs(lib, Found(before), args) == TrustManagerArgs(lib, Found(after), args)
  {
    var p, q := ResolveHonored(lib, Found(before)), ResolveHonored(lib, Found(after));
    assert p.Err? ==> p == q;
    if p.Ok? && p.value.Some? {
      assert q.Ok? && q.value.Some? && SemanticallyEqualSpecs(p.value.value, q.value.value);
      assert JoinedCiphers(lib, p.value.value) == JoinedCiphers(lib, q.value.value);
    }
  }
}
