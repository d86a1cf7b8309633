/**
  Building a HostedCluster from a ManagedHostedCluster (internal/controller/
  hostedcluster_controller.go, populateHostedClusterSpec, buildHostedCluster, setCondition;
  the types are those of api/v1alpha1/hypershift_types.go).
 */
module HostedClusters {
  import opened Wrappers

  datatype Key = Key(namespace: string, name: string)

  datatype Networking = Networking(clusterNetwork: seq<string>, serviceNetwork: seq<string>, networkType: string)

  datatype Etcd = Etcd(managementType: string, managedStorage: Option<string>)

  datatype ServiceMapping = ServiceMapping(service: string, strategy: string)

  datatype Claim = Claim(claim: string, prefix: string)

  datatype Provider = Provider(name: string, issuerURL: string, audiences: seq<string>, username: Claim,
                               groups: Option<Claim>)

  datatype Authentication = Authentication(kind: string, providers: seq<Provider>)

  datatype Configuration = Configuration(authentication: Option<Authentication>)

  /** The value of a HostedClusterSpec; pointers and slices that may be nil are options. */
  datatype ClusterSpec = ClusterSpec(
    releaseImage: string,
    infraID: string,
    platform: string,
    networking: Option<Networking>,
    etcd: Option<Etcd>,
    services: Option<seq<ServiceMapping>>,
    channel: string,
    availability: string,
    pullSecret: Option<string>,
    signingKey: Option<string>,
    clusterID: string,
    capabilities: Option<seq<string>>,
    configuration: Option<Configuration>)

  datatype MhcSpec = MhcSpec(clusterID: string, stream: string, hosted: ClusterSpec)

  datatype HostedCluster = HostedCluster(key: Key, spec: ClusterSpec)

  const DEFAULT_NETWORKING := Networking(["10.132.0.0/14"], ["172.31.0.0/16"], "OVNKubernetes")

  const DEFAULT_ETCD := Etcd("Managed", Some("PersistentVolume"))

  const DEFAULT_SERVICES := [ServiceMapping("APIServer", "Route"), ServiceMapping("OAuthServer", "Route"),
                             ServiceMapping("Konnectivity", "Route"), ServiceMapping("Ignition", "Route")]

  const DEFAULT_CAPABILITIES := ["ImageRegistry", "Console", "Ingress"]

  const DEFAULT_CONFIGURATION :=
    Configuration(Some(Authentication("OIDC",
      [Provider("google", "https://accounts.google.com", ["32555940559.apps.googleusercontent.com"],
                Claim("email", ""), Some(Claim("hd", "")))])))

  /** What the controller fills in. */
  datatype Defaults = Defaults(
    networking: Networking,
    etcd: Etcd,
    services: seq<ServiceMapping>,
    capabilities: seq<string>,
    configuration: Configuration)

  const DEFAULTS :=
    Defaults(DEFAULT_NETWORKING, DEFAULT_ETCD, DEFAULT_SERVICES, DEFAULT_CAPABILITIES, DEFAULT_CONFIGURATION)

  function OrDefault<T>(o: Option<T>, default: T): Option<T> { if o.None? then Some(default) else o }

  /** What the user may set is filled in where it is nil. */
  function Defaulted(spec: ClusterSpec, d: Defaults): ClusterSpec {
    spec.(networking := OrDefault(spec.networking, d.networking),
          etcd := OrDefault(spec.etcd, d.etcd),
          services := OrDefault(spec.services, d.services),
          capabilities := OrDefault(spec.capabilities, d.capabilities),
          configuration := OrDefault(spec.configuration, d.configuration))
  }

  function Populated(spec: ClusterSpec, name: string, clusterID: string, channel: string): ClusterSpec {
    Defaulted(spec, DEFAULTS).(platform := "GCP",
                               channel := channel,
                               availability := "HighlyAvailable",
                               pullSecret := Some("pull-secret"),
                               signingKey := Some(name + "-signing-key"),
                               clusterID := clusterID)
  }

  /** Marshalling drops a list that is present but empty. */
  function RoundTrip(spec: ClusterSpec): ClusterSpec {
    if spec.services == Some([]) then spec.(services := None) else spec
  }

  /** The HostedCluster for these inputs. */
  function Build(key: Key, m: MhcSpec, image: string, channel: string): HostedCluster {
    HostedCluster(key, RoundTrip(Populated(m.hosted, key.name, m.clusterID, channel)).(releaseImage := image))
  }

  /** The resolved image and channel are carried; what the user set is kept -- except an
      empty list of services -- and only what the user left out is filled in. */
  lemma BuildKeepsSettings(key: Key, m: MhcSpec, image: string, channel: string)
    ensures var spec, user := Build(key, m, image, channel).spec, m.hosted;
            && spec.releaseImage == image && spec.channel == channel
            && spec.clusterID == m.clusterID && spec.infraID == user.infraID
            && (user.networking.Some? ==> spec.networking == user.networking)
            && (user.etcd.Some? ==> spec.etcd == user.etcd)
            && (user.capabilities.Some? ==> spec.capabilities == user.capabilities)
            && (user.configuration.Some? ==> spec.configuration == user.configuration)
            && (user.services.Some? && user.services.value != [] ==> spec.services == user.services)
            && spec.networking.Some? && spec.etcd.Some? && spec.capabilities.Some? && spec.configuration.Some?
            && (spec.services.Some? <==> user.services != Some([]))
  {
  }

  function Or<T>(o: Option<T>, otherwise: T): T { if o.Some? then o.value else otherwise }

  /** The whole object, field by field: what the controller insists on, and what stands where the
      user left something out. */
  lemma BuildLiterally(key: Key, m: MhcSpec, image: string, channel: string)
    ensures var user := m.hosted;
            Build(key, m, image, channel) == HostedCluster(key, ClusterSpec(
              image,
              user.infraID,
              "GCP",
              Some(Or(user.networking, Networking(["10.132.0.0/14"], ["172.31.0.0/16"], "OVNKubernetes"))),
              Some(Or(user.etcd, Etcd("Managed", Some("PersistentVolume")))),
              if user.services == Some([]) then None
              else Some(Or(user.services, [ServiceMapping("APIServer", "Route"), ServiceMapping("OAuthServer", "Route"),
                                           ServiceMapping("Konnectivity", "Route"),
                                           ServiceMapping("Ignition", "Route")])),
              channel,
              "HighlyAvailable",
              Some("pull-secret"),
              Some(key.name + "-signing-key"),
              m.clusterID,
              Some(Or(user.capabilities, ["ImageRegistry", "Console", "Ingress"])),
              Some(Or(user.configuration, Configuration(Some(Authentication("OIDC", [
                Provider("google", "https://accounts.google.com", ["32555940559.apps.googleusercontent.com"],
                         Claim("email", ""), Some(Claim("hd", "")))])))))))
  {
  }

  /** Nothing the user writes into the fields the controller owns has any effect. */
  lemma OwnedFieldsAreIgnored(key: Key, m: MhcSpec, other: ClusterSpec, image: string, channel: string)
    requires other.infraID == m.hosted.infraID && other.networking == m.hosted.networking && other.etcd == m.hosted.etcd
    requires other.services == m.hosted.services && other.capabilities == m.hosted.capabilities
    requires other.configuration == m.hosted.configuration
    ensures Build(key, m.(hosted := other), image, channel) == Build(key, m, image, channel)
  {
  }

  /** Building again from what was built gives the same, unless the user's list of services
      was present but empty: it is dropped first and replaced by the default later. */
  lemma RebuildIsStableIff(key: Key, m: MhcSpec, image: string, channel: string)
    ensures var once := Build(key, m, image, channel);
            Build(key, m.(hosted := once.spec), image, channel) == once <==> m.hosted.services != Some([])
  {
  }

  // Conditions.

  datatype Condition = Condition(kind: string, status: bool, reason: string, message: string, time: int)

  /** The first condition of the same kind is replaced, or the new one appended. */
  function Put(conditions: seq<Condition>, c: Condition): seq<Condition> {
    if conditions == [] then [c]
    else if conditions[0].kind == c.kind then [c] + conditions[1..]
    else [conditions[0]] + Put(conditions[1..], c)
  }

  ghost predicate OnePerKind(conditions: seq<Condition>) {
    forall i, j :: 0 <= i < j < |conditions| ==> conditions[i].kind != conditions[j].kind
  }

  /** A list with one condition per kind stays one, with this kind's condition replaced and
      all others kept. */
  lemma {:induction false} PutReplaces(conditions: seq<Condition>, c: Condition)
    requires OnePerKind(conditions)
    ensures OnePerKind(Put(conditions, c))
    ensures forall x :: x in Put(conditions, c) <==> x == c || (x in conditions && x.kind != c.kind)
  {
    if conditions != [] {
      var first, rest := conditions[0], conditions[1..];
      assert conditions == [first] + rest;
      assert forall x :: x in rest ==> x.kind != first.kind;
      if first.kind != c.kind {
        PutReplaces(rest, c);
        assert forall x :: x in Put(rest, c) ==> x.kind != first.kind;
      }
    }
  }

  /** Where nothing before `i` is of the kind, `i` is where it goes. */
  lemma {:induction false} PutAt(conditions: seq<Condition>, c: Condition, i: nat)
    requires i <= |conditions| && forall j :: 0 <= j < i ==> conditions[j].kind != c.kind
    requires i < |conditions| ==> conditions[i].kind == c.kind
    ensures Put(conditions, c) == if i < |conditions| then conditions[i := c] else conditions + [c]
  {
    if i > 0 {
      PutAt(conditions[1..], c, i - 1);
    }
  }

  // The controller's code.

  /** What a pointer points to. Copies of a struct share it. */
  class Ref<T> {
    var value: T

    constructor (value: T)
      ensures this.value == value
    {
      this.value := value;
    }
  }

  function Deref<T>(r: Ref?<T>): Option<T>
    reads r
  {
    if r == null then None else Some(r.value)
  }

  method Point<T>(o: Option<T>) returns (r: Ref?<T>)
    ensures Deref(r) == o && (r != null ==> fresh(r))
  {
    r := null;
    if o.Some? {
      r := new Ref<T>(o.value);
    }
  }

  class HostedClusterSpec {
    var releaseImage: string
    var infraID: string
    var platform: string
    var networking: Ref?<Networking>
    var etcd: Ref?<Etcd>
    var services: Option<seq<ServiceMapping>>
    var channel: string
    var availability: string
    var pullSecret: Ref?<string>
    var signingKey: Ref?<string>
    var clusterID: string
    var capabilities: Ref?<seq<string>>
    var configuration: Ref?<Configuration>

    /** The objects the struct points to. */
    ghost function Nested(): set<object?>
      reads this
    {
      {networking as object?, etcd as object?, pullSecret as object?, signingKey as object?,
       capabilities as object?, configuration as object?}
    }

    function Value(): ClusterSpec
      reads this, Nested()
    {
      ClusterSpec(releaseImage, infraID, platform, Deref(networking), Deref(etcd), services, channel, availability,
                  Deref(pullSecret), Deref(signingKey), clusterID, Deref(capabilities), Deref(configuration))
    }

    /** A struct of its own, pointing to new objects. */
    constructor (v: ClusterSpec)
      ensures Value() == v && forall o :: o in Nested() ==> o == null || fresh(o)
    {
      var networking := Point(v.networking);
      var etcd := Point(v.etcd);
      var pullSecret := Point(v.pullSecret);
      var signingKey := Point(v.signingKey);
      var capabilities := Point(v.capabilities);
      var configuration := Point(v.configuration);
      releaseImage, infraID, platform := v.releaseImage, v.infraID, v.platform;
      services, channel, availability, clusterID := v.services, v.channel, v.availability, v.clusterID;
      this.networking, this.etcd, this.pullSecret := networking, etcd, pullSecret;
      this.signingKey, this.capabilities, this.configuration := signingKey, capabilities, configuration;
    }

    /** Assignment of structs: the copy points to the same objects. */
    constructor Copy(other: HostedClusterSpec)
      ensures Value() == other.Value() && Nested() == other.Nested()
    {
      releaseImage, infraID, platform := other.releaseImage, other.infraID, other.platform;
      networking, etcd, services := other.networking, other.etcd, other.services;
      channel, availability, clusterID := other.channel, other.availability, other.clusterID;
      pullSecret, signingKey := other.pullSecret, other.signingKey;
      capabilities, configuration := other.capabilities, other.configuration;
    }
  }

  class ManagedHostedCluster {
    const key: Key
    var clusterID: string
    var stream: string
    const hosted: HostedClusterSpec
    var conditions: seq<Condition>

    constructor (key: Key, m: MhcSpec)
      ensures this.key == key && Spec() == m && fresh(hosted) && conditions == []
    {
      this.key, clusterID, stream, conditions := key, m.clusterID, m.stream, [];
      hosted := new HostedClusterSpec(m.hosted);
    }

    function Spec(): MhcSpec
      reads this, hosted, hosted.Nested()
    {
      MhcSpec(clusterID, stream, hosted.Value())
    }

    method SetCondition(c: Condition)
      modifies this`conditions
      ensures conditions == Put(old(conditions), c)
    {
      for i := 0 to |conditions|
        invariant conditions == old(conditions)
        invariant forall j :: 0 <= j < i ==> conditions[j].kind != c.kind
      {
        if conditions[i].kind == c.kind {
          PutAt(conditions, c, i);
          conditions := conditions[i := c];
          return;
        }
      }
      PutAt(conditions, c, |conditions|);
      conditions := conditions + [c];
    }
  }

  /** A nil pointer is replaced by one to the default. */
  method OrNew<T>(r: Ref?<T>, default: T) returns (out: Ref<T>)
    ensures Some(out.value) == OrDefault(Deref(r), default)
    ensures if r == null then fresh(out) else out == r
  {
    if r == null {
      out := new Ref<T>(default);
    } else {
      out := r;
    }
  }

  method FillDefaults(spec: HostedClusterSpec, d: Defaults)
    modifies spec`networking, spec`etcd, spec`services, spec`capabilities, spec`configuration
    ensures Deref(spec.networking) == OrDefault(old(Deref(spec.networking)), d.networking)
    ensures Deref(spec.etcd) == OrDefault(old(Deref(spec.etcd)), d.etcd)
    ensures spec.services == OrDefault(old(spec.services), d.services)
    ensures Deref(spec.capabilities) == OrDefault(old(Deref(spec.capabilities)), d.capabilities)
    ensures Deref(spec.configuration) == OrDefault(old(Deref(spec.configuration)), d.configuration)
  {
    var networking := OrNew(spec.networking, d.networking);
    var etcd := OrNew(spec.etcd, d.etcd);
    var capabilities := OrNew(spec.capabilities, d.capabilities);
    var configuration := OrNew(spec.configuration, d.configuration);
    spec.networking, spec.etcd, spec.capabilities, spec.configuration := networking, etcd, capabilities, configuration;
    if spec.services.None? {
      spec.services := Some(d.services);
    }
  }

  method SetOwned(spec: HostedClusterSpec, name: string, clusterID: string, channel: string)
    modifies spec`platform, spec`clusterID, spec`channel, spec`availability, spec`pullSecret, spec`signingKey
    ensures spec.platform == "GCP" && spec.availability == "HighlyAvailable"
    ensures spec.clusterID == clusterID && spec.channel == channel
    ensures Deref(spec.pullSecret) == Some("pull-secret") && Deref(spec.signingKey) == Some(name + "-signing-key")
  {
    spec.platform := "GCP";
    spec.clusterID := clusterID;
    spec.channel := channel;
    spec.availability := "HighlyAvailable";
    spec.pullSecret := new Ref<string>("pull-secret");
    spec.signingKey := new Ref<string>(name + "-signing-key");
  }

  /** What `spec` points to may be shared, and is not written. */
  method PopulateHostedClusterSpec(spec: HostedClusterSpec, mhc: ManagedHostedCluster, channel: string)
    requires spec != mhc.hosted
    modifies spec
    ensures spec.Value() == Populated(old(spec.Value()), mhc.key.name, mhc.clusterID, channel)
  {
    FillDefaults(spec, DEFAULTS);
    SetOwned(spec, mhc.key.name, mhc.clusterID, channel);
  }

  /** The spec worked on is a shallow copy that shares every object the input points to, and
      yet the input is left as it was. */
  method BuildHostedCluster(mhc: ManagedHostedCluster, releaseImage: string, channel: string)
    returns (hc: HostedCluster)
    ensures hc == Build(mhc.key, mhc.Spec(), releaseImage, channel)
    ensures mhc.Spec() == old(mhc.Spec())
  {
    ghost var m := mhc.Spec();
    var spec := new HostedClusterSpec.Copy(mhc.hosted);
    assert spec.Value() == m.hosted;
    PopulateHostedClusterSpec(spec, mhc, channel);
    assert mhc.Spec() == m;
    var specMap := RoundTrip(spec.Value());
    hc := HostedCluster(mhc.key, specMap.(releaseImage := releaseImage));
  }
}
