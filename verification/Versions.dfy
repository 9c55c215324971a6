/** ProviderConfig lookups: which artifacts a requested version maps to, and how often to poll. */
module Versions {
  import opened Wrappers
  import opened Resources

  const DEFAULT_CHART_URL := "oci://registry.k8s.io/kro/charts/kro"
  const DEFAULT_POLL_INTERVAL := MINUTE
  const OCI_SCHEME := "oci://"

  /** Why a version cannot be resolved; `offered` is what the message lists. */
  datatype VersionError =
    | NoProviderConfig(requested: string)
    | NothingOffered(requested: string)
    | NotOffered(requested: string, offered: seq<string>)

  function Join(names: seq<string>): string {
    if names == [] then "" else if |names| == 1 then names[0] else names[0] + ", " + Join(names[1..])
  }

  /** The error text, which the Ready condition shows to the tenant. */
  function Describe(e: VersionError): string {
    match e
    case NoProviderConfig(v) => v + ", no provider config is configured"
    case NothingOffered(v) => v + ", the provider config offers no versions"
    case NotOffered(v, names) => v + ", available versions are: " + Join(names)
  }

  /** The position at which `version` is first offered, or the length of the list. */
  function FirstOffer(versions: seq<KroVersion>, version: string): (i: nat)
    ensures i <= |versions|
    ensures i < |versions| ==> versions[i].version == version
    ensures forall j :: 0 <= j < i ==> versions[j].version != version
  {
    if versions == [] || versions[0].version == version then 0
    else
      var rest := FirstOffer(versions[1..], version);
      assert forall j :: 0 < j < 1 + rest ==> versions[j] == versions[1..][j - 1];
      1 + rest
  }

  function Offered(versions: seq<KroVersion>): (names: seq<string>)
    ensures |names| == |versions|
    ensures forall i :: 0 <= i < |names| ==> names[i] == versions[i].version
  {
    seq(|versions|, i requires 0 <= i < |versions| => versions[i].version)
  }

  function Resolve(config: Option<ProviderConfig>, version: string): Result<KroVersion, VersionError> {
    match config
    case None => Failure(NoProviderConfig(version))
    case Some(c) =>
      var i := FirstOffer(c.versions, version);
      if i < |c.versions| then Success(c.versions[i])
      else if c.versions == [] then Failure(NothingOffered(version))
      else Failure(NotOffered(version, Offered(c.versions)))
  }

  /** What is said when nothing is found: every version that is offered, in order, or that there are none. */
  lemma NothingIsFound(config: Option<ProviderConfig>, version: string)
    ensures Resolve(config, version).Success? <==>
      config.Some? && exists i :: 0 <= i < |config.value.versions| && config.value.versions[i].version == version
    ensures config.None? ==> Resolve(config, version) == Failure(NoProviderConfig(version))
    ensures config.Some? && config.value.versions == [] ==> Resolve(config, version) == Failure(NothingOffered(version))
    ensures config.Some? && config.value.versions != [] && Resolve(config, version).Failure? ==>
      var e, vs := Resolve(config, version).error, config.value.versions;
      && e.NotOffered? && e.requested == version && |e.offered| == |vs|
      && forall i :: 0 <= i < |vs| ==> e.offered[i] == vs[i].version
  {
  }

  ghost predicate Occurs(part: string, s: string) { exists a, b :: s == a + part + b }

  lemma OccursInParts(part: string, a: string, s: string, b: string)
    requires Occurs(part, s)
    ensures Occurs(part, a + s + b)
  {
    var x, y :| s == x + part + y;
    assert a + s + b == (a + x) + part + (y + b);
  }

  lemma {:induction false} JoinNamesAll(names: seq<string>, i: nat)
    requires i < |names|
    ensures Occurs(names[i], Join(names))
  {
    if i == 0 {
      assert Join(names) == [] + names[0] + Join(names)[|names[0]|..];
    } else {
      JoinNamesAll(names[1..], i - 1);
      OccursInParts(names[i], names[0] + ", ", Join(names[1..]), []);
      assert names[0] + ", " + Join(names[1..]) + [] == names[0] + ", " + Join(names[1..]);
    }
  }

  /** The message names the version asked for, and every version that could have been. */
  lemma MessageNamesVersions(version: string, names: seq<string>, i: nat)
    requires i < |names|
    ensures Occurs(version, Describe(NotOffered(version, names)))
    ensures Occurs(names[i], Describe(NotOffered(version, names)))
  {
    JoinNamesAll(names, i);
    OccursInParts(names[i], version + ", available versions are: ", Join(names), []);
    assert version + ", available versions are: " + Join(names) + [] == Describe(NotOffered(version, names));
    assert Describe(NotOffered(version, names)) == [] + version + (", available versions are: " + Join(names));
  }

  /** versions is a list map keyed by version: no two entries offer the same name. */
  ghost predicate UniqueKeys(versions: seq<KroVersion>) {
    forall i, j :: 0 <= i < j < |versions| ==> versions[i].version != versions[j].version
  }

  /** With unique keys, the walk is a map lookup: it finds an entry iff that entry is offered. */
  lemma ResolveIsLookup(c: ProviderConfig, version: string, v: KroVersion)
    requires UniqueKeys(c.versions)
    ensures Resolve(Some(c), version) == Success(v) <==> v in c.versions && v.version == version
  {
    var i := FirstOffer(c.versions, version);
    if v in c.versions && v.version == version {
      var j :| 0 <= j < |c.versions| && c.versions[j] == v;
      assert i == j;
    }
  }

  /** The order of the list does not matter to a successful lookup, nor to whether it succeeds. */
  lemma ResolveIgnoresOrder(c: ProviderConfig, d: ProviderConfig, version: string)
    requires UniqueKeys(c.versions) && UniqueKeys(d.versions)
    requires forall v :: v in c.versions <==> v in d.versions
    ensures Resolve(Some(c), version).Success? == Resolve(Some(d), version).Success?
    ensures Resolve(Some(c), version).Success? ==> Resolve(Some(c), version) == Resolve(Some(d), version)
  {
    var r, s := Resolve(Some(c), version), Resolve(Some(d), version);
    if r.Success? {
      ResolveIsLookup(c, version, r.value);
      ResolveIsLookup(d, version, r.value);
    }
    if s.Success? {
      ResolveIsLookup(c, version, s.value);
      ResolveIsLookup(d, version, s.value);
    }
  }

  function EnsureOCIScheme(url: string): (r: string)
    ensures OCI_SCHEME <= r
    ensures r == url || (!(OCI_SCHEME <= url) && r[|OCI_SCHEME|..] == url)
  {
    if OCI_SCHEME <= url then url else OCI_SCHEME + url
  }

  function ChartURL(v: KroVersion): (r: string) {
    if v.chartURL.None? || v.chartURL.value == "" then DEFAULT_CHART_URL
    else EnsureOCIScheme(v.chartURL.value)
  }

  /** What a configured reference means: the default if there is none, and else itself, with the scheme. */
  ghost predicate Means(reference: Option<string>, url: string) {
    if reference == None || reference == Some("") then url == "oci://registry.k8s.io/kro/charts/kro"
    else if "oci://" <= reference.value then url == reference.value
    else url == "oci://" + reference.value
  }

  /**
   The resolved URL is what the configured reference means; it always carries the scheme, and storing it back
   and resolving again changes nothing.
   */
  lemma ChartURLIsNormal(v: KroVersion)
    ensures Means(v.chartURL, ChartURL(v))
    ensures OCI_SCHEME <= ChartURL(v)
    ensures EnsureOCIScheme(ChartURL(v)) == ChartURL(v)
    ensures ChartURL(v.(chartURL := Some(ChartURL(v)))) == ChartURL(v)
  {
    assert DEFAULT_CHART_URL[..|OCI_SCHEME|] == OCI_SCHEME;
  }

  /** A configured interval is taken as it is, zero and negative included. */
  function PollInterval(c: ProviderConfig): (seconds: int)
    ensures seconds == match c.pollInterval case None => 60 case Some(n) => n
  {
    if c.pollInterval.None? then DEFAULT_POLL_INTERVAL else c.pollInterval.value
  }

  /** The image pull secrets named by raw Helm values; absent and empty values name none. */
  function ExtractHelmValues(values: Option<Json>): (r: Result<seq<string>, string>)
    ensures values.None? ==> r == Success([])
    ensures values.Some? ==> r == if values.value.raw == "" then Success([]) else values.value.pullSecrets
  {
    if values.None? || values.value.raw == "" then Success([]) else values.value.pullSecrets
  }
}
