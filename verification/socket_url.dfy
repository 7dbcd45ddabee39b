/** The address of the per-job status channel: secure scheme exactly when the
    page itself was served over https, then the page host, then a path keyed by
    the job identifier. */
module SocketUrl {
  import opened Options

  const PathPrefix: string := "/api/v1/ws/jobs/"
  const PathSuffix: string := "/status"

  /** The channel scheme for a page protocol (the protocol includes its colon). */
  function Scheme(protocol: string): (r: string)
    ensures r == "wss" <==> protocol == "https:"
    ensures r == "ws" <==> protocol != "https:"
  {
    if protocol == "https:" then "wss" else "ws"
  }

  /** The channel address for `jobId`, given the page's protocol and host. */
  function BuildUrl(protocol: string, host: string, jobId: string): (url: string)
    ensures Scheme(protocol) + "://" + host <= url
    ensures |url| >= |PathSuffix| && url[|url| - |PathSuffix|..] == PathSuffix
  {
    Scheme(protocol) + "://" + host + PathPrefix + jobId + PathSuffix
  }

  /** What an address names: whether it is secure, the host, the job. */
  datatype Target = Target(secure: bool, host: string, jobId: string)

  /** Index of the first '/' in `s`, or `|s|` when there is none. */
  function FirstSlash(s: string): (k: nat)
    ensures k <= |s|
    ensures k < |s| ==> s[k] == '/'
    ensures forall i :: 0 <= i < k ==> s[i] != '/'
  {
    if s == [] then 0
    else if s[0] == '/' then 0
    else 1 + FirstSlash(s[1..])
  }

  /** Reads an address back into its target; `None` when it does not have the
      shape `BuildUrl` produces. */
  function ParseUrl(url: string): Option<Target> {
    if |url| >= 6 && url[..6] == "wss://" then ParseAfterScheme(true, url[6..])
    else if |url| >= 5 && url[..5] == "ws://" then ParseAfterScheme(false, url[5..])
    else None
  }

  /** Splits "host/path" at the first slash and checks the fixed path around the job. */
  function ParseAfterScheme(secure: bool, rest: string): Option<Target> {
    var k := FirstSlash(rest);
    var path := rest[k..];
    if |path| >= |PathPrefix| + |PathSuffix|
       && path[..|PathPrefix|] == PathPrefix
       && path[|path| - |PathSuffix|..] == PathSuffix
    then Some(Target(secure, rest[..k], path[|PathPrefix|..|path| - |PathSuffix|]))
    else None
  }

  /** The first slash of `host + tail` is where `tail` starts, when the host has none. */
  lemma {:induction false} FirstSlashAfterHost(host: string, tail: string)
    requires forall i :: 0 <= i < |host| ==> host[i] != '/'
    requires |tail| > 0 && tail[0] == '/'
    ensures FirstSlash(host + tail) == |host|
    decreases |host|
  {
    if host != [] {
      assert (host + tail)[1..] == host[1..] + tail;
      FirstSlashAfterHost(host[1..], tail);
    }
  }

  /** The part after the scheme reads back into host and job identifier. */
  lemma ParseAfterSchemeOfBuild(secure: bool, host: string, jobId: string)
    requires forall i :: 0 <= i < |host| ==> host[i] != '/'
    ensures ParseAfterScheme(secure, host + (PathPrefix + jobId + PathSuffix)) == Some(Target(secure, host, jobId))
  {
    var path := PathPrefix + jobId + PathSuffix;
    var rest := host + path;
    FirstSlashAfterHost(host, path);
    assert rest[..|host|] == host;
    assert rest[|host|..] == path;
    assert path[..|PathPrefix|] == PathPrefix;
    assert path[|path| - |PathSuffix|..] == PathSuffix;
    assert path[|PathPrefix|..|path| - |PathSuffix|] == jobId;
  }

  /** Building then parsing an address gives back the scheme choice, the host and
      the job identifier, for every host without a '/' (a page host never has one)
      and every job identifier. */
  lemma ParseBuildUrl(protocol: string, host: string, jobId: string)
    requires forall i :: 0 <= i < |host| ==> host[i] != '/'
    ensures ParseUrl(BuildUrl(protocol, host, jobId)) == Some(Target(protocol == "https:", host, jobId))
  {
    var rest := host + (PathPrefix + jobId + PathSuffix);
    BuildUrlShape(protocol, host, jobId, rest);
    ParseScheme(protocol, rest);
    ParseAfterSchemeOfBuild(protocol == "https:", host, jobId);
  }

  /** Helper for `ParseBuildUrl`: the scheme is read back as the page protocol's choice. */
  lemma ParseScheme(protocol: string, rest: string)
    ensures ParseUrl((Scheme(protocol) + "://") + rest) == ParseAfterScheme(protocol == "https:", rest)
  {
    if protocol == "https:" {
      assert Scheme(protocol) + "://" == "wss://";
      ParseSecure(rest);
    } else {
      assert Scheme(protocol) + "://" == "ws://";
      ParsePlain(rest);
    }
  }

  /** Helper for `ParseBuildUrl`: regroups the concatenation `BuildUrl` writes. */
  lemma BuildUrlShape(protocol: string, host: string, jobId: string, rest: string)
    requires rest == host + (PathPrefix + jobId + PathSuffix)
    ensures BuildUrl(protocol, host, jobId) == (Scheme(protocol) + "://") + rest
  {
  }

  lemma ParseSecure(rest: string)
    ensures ParseUrl("wss://" + rest) == ParseAfterScheme(true, rest)
  {
    var url := "wss://" + rest;
    assert url[..6] == "wss://";
    assert url[6..] == rest;
  }

  lemma ParsePlain(rest: string)
    ensures ParseUrl("ws://" + rest) == ParseAfterScheme(false, rest)
  {
    var url := "ws://" + rest;
    assert url[2] == ':';
    assert |url| < 6 || url[..6] != "wss://";
    assert url[..5] == "ws://";
    assert url[5..] == rest;
  }

  /** Two builds with the same page that name different jobs give different addresses. */
  lemma BuildUrlInjective(protocol: string, host: string, jobA: string, jobB: string)
    requires forall i :: 0 <= i < |host| ==> host[i] != '/'
    requires BuildUrl(protocol, host, jobA) == BuildUrl(protocol, host, jobB)
    ensures jobA == jobB
  {
    ParseBuildUrl(protocol, host, jobA);
    ParseBuildUrl(protocol, host, jobB);
  }
}
