/**
 * How the agent finds the RMI registry its connector server binds to (initRMI). The
 * java.net.URI parser and java.rmi.registry.LocateRegistry are left abstract: the model
 * takes their outcomes as an environment.
 */
module Rmi {
  import opened Wrappers
  import opened Text

  /** The connector URL used when none is configured. */
  const DefaultRemotingUri := RemotingUriHead + DefaultRegistryLocation
  const RemotingUriHead := "service:jmx:rmi:///jndi/"
  const DefaultRegistryLocation := "rmi://localhost:1099/server"
  const RmiConnectorMarker := "jmx:rmi"
  const RmiScheme := "rmi://"

  /** A registry the agent holds: one it exported on a port, or a stub for one at a host and port. */
  datatype Registry = CreatedAt(port: int) | LocatedAt(host: Option<string>, port: int)

  /** The host and port of a parsed `rmi://` URI (getHost may be null). */
  datatype RegistryLocator = RegistryLocator(host: Option<string>, port: int)

  /**
   * LocateRegistry.createRegistry: the registry is exported, or the port is already bound
   * (ExportException), or some other RemoteException is thrown.
   */
  datatype CreateOutcome = Created | PortBound | CreateFailed

  /**
   * The environment initRMI talks to: the URI parser (None for URISyntaxException), registry
   * creation on a port, and whether LocateRegistry.getRegistry answers for a host and port.
   */
  datatype RmiEnv = RmiEnv(parseUri: string -> Option<RegistryLocator>,
                           create: int -> CreateOutcome,
                           locate: (Option<string>, int) -> bool)

  /** What initRMI leaves in rmiRegistry, and whether it returned normally. */
  datatype Resolution = Resolution(registry: Option<Registry>, ok: bool)

  /** The URL initRMI inspects: the configured one, or the default. */
  function ConnectUri(url: Option<string>): string {
    url.GetOr(DefaultRemotingUri)
  }

  /** `connectUri.substring(connectUri.lastIndexOf("rmi://"))`; None where substring(-1) throws. */
  function RegistryUri(connectUri: string): Option<string> {
    var i := LastIndexOf(connectUri, RmiScheme);
    if i == -1 then None else Some(connectUri[i..])
  }

  /** getRegistry(host, port): a stub on success; a RemoteException leaves the held registry. */
  function Locate(held: Option<Registry>, at: RegistryLocator, env: RmiEnv): Resolution {
    if env.locate(at.host, at.port) then Resolution(Some(LocatedAt(at.host, at.port)), true)
    else Resolution(held, false)
  }

  /**
   * The registry step once the URI is parsed: a held registry is kept; otherwise one is created
   * on the port when asked (attaching to the one already bound there on an export conflict),
   * or located at the host and port.
   */
  function Attach(held: Option<Registry>, at: RegistryLocator, createRegistry: bool, env: RmiEnv): Resolution {
    if held.Some? then Resolution(held, true)
    else if createRegistry then
      match env.create(at.port)
      case Created => Resolution(Some(CreatedAt(at.port)), true)
      case PortBound => Locate(held, at, env)
      case CreateFailed => Resolution(held, false)
    else Locate(held, at, env)
  }

  /**
   * initRMI: nothing happens unless the URL names the RMI connector; then the registry URI is
   * cut out and parsed (even when a registry is already held) and the registry step runs.
   */
  function ResolveRegistry(held: Option<Registry>, url: Option<string>, createRegistry: bool,
                           env: RmiEnv): Resolution
  {
    var connectUri := ConnectUri(url);
    if !Contains(connectUri, RmiConnectorMarker) then Resolution(held, true)
    else match RegistryUri(connectUri)
      case None => Resolution(held, false)
      case Some(u) =>
        match env.parseUri(u)
        case None => Resolution(held, false)
        case Some(at) => Attach(held, at, createRegistry, env)
  }

  /** A URL that does not name the RMI connector leaves the registry alone and succeeds. */
  lemma ResolveOutsideRmi(held: Option<Registry>, url: Option<string>, createRegistry: bool, env: RmiEnv)
    requires forall j :: !OccursAt(ConnectUri(url), RmiConnectorMarker, j)
    ensures ResolveRegistry(held, url, createRegistry, env) == Resolution(held, true)
  {
  }

  /** A registry already held is never replaced, whatever the outcome. */
  lemma ResolveKeepsHeld(held: Option<Registry>, url: Option<string>, createRegistry: bool, env: RmiEnv)
    requires held.Some?
    ensures ResolveRegistry(held, url, createRegistry, env).registry == held
  {
  }

  /**
   * A failure always leaves the registry as it was, and it happens only for the RMI connector:
   * no `rmi://` in the URL, an unparsable registry URI, or no registry held and none obtained.
   */
  lemma ResolveFailure(held: Option<Registry>, url: Option<string>, createRegistry: bool, env: RmiEnv)
    requires !ResolveRegistry(held, url, createRegistry, env).ok
    ensures ResolveRegistry(held, url, createRegistry, env).registry == held
    ensures Contains(ConnectUri(url), RmiConnectorMarker)
    ensures RegistryUri(ConnectUri(url)).None?
         || env.parseUri(RegistryUri(ConnectUri(url)).value).None?
         || held.None?
  {
  }

  /**
   * A registry is recorded only when none was held: one created on the parsed port, or a stub
   * for the parsed host and port, obtained directly or after the port turned out to be bound.
   */
  lemma ResolveNewRegistry(held: Option<Registry>, url: Option<string>, createRegistry: bool, env: RmiEnv)
    ensures var res := ResolveRegistry(held, url, createRegistry, env);
      res.registry != held ==>
        && held.None? && res.ok
        && var connectUri := ConnectUri(url);
           && Contains(connectUri, RmiConnectorMarker)
           && RegistryUri(connectUri).Some?
           && env.parseUri(RegistryUri(connectUri).value).Some?
           && var at := env.parseUri(RegistryUri(connectUri).value).value;
              || (res.registry == Some(CreatedAt(at.port)) && createRegistry && env.create(at.port) == Created)
              || (res.registry == Some(LocatedAt(at.host, at.port)) && env.locate(at.host, at.port)
                  && (createRegistry ==> env.create(at.port) == PortBound))
  {
  }

  /**
   * On an export conflict the agent attaches, once, to the registry bound at the same host and
   * port; if that fails too, so does initRMI.
   */
  lemma ResolveFallsBack(url: Option<string>, env: RmiEnv, at: RegistryLocator)
    requires Contains(ConnectUri(url), RmiConnectorMarker)
    requires RegistryUri(ConnectUri(url)).Some?
    requires env.parseUri(RegistryUri(ConnectUri(url)).value) == Some(at)
    requires env.create(at.port) == PortBound
    ensures ResolveRegistry(None, url, true, env)
         == if env.locate(at.host, at.port) then Resolution(Some(LocatedAt(at.host, at.port)), true)
            else Resolution(None, false)
  {
  }

  /** The registry URI is the text from the last `rmi://` on, which holds no later `rmi://`. */
  lemma RegistryUriSpec(connectUri: string)
    ensures RegistryUri(connectUri).None? <==> forall j :: !OccursAt(connectUri, RmiScheme, j)
    ensures RegistryUri(connectUri).Some? ==>
      var u := RegistryUri(connectUri).value;
      && RmiScheme <= u && u == connectUri[|connectUri| - |u|..]
      && forall j :: 0 < j ==> !OccursAt(u, RmiScheme, j)
  {
    var i := LastIndexOf(connectUri, RmiScheme);
    if i != -1 {
      var u := connectUri[i..];
      assert u[..|RmiScheme|] == connectUri[i..i + |RmiScheme|];
      forall j | 0 < j ensures !OccursAt(u, RmiScheme, j) {
        if OccursAt(u, RmiScheme, j) {
          assert u[j..j + |RmiScheme|] == connectUri[i + j..i + j + |RmiScheme|];
          assert OccursAt(connectUri, RmiScheme, i + j);
        }
      }
    }
  }

  /** The last occurrence of `pat` is where `b` begins when `b` starts with it and holds no later `pat[0]` early enough. */
  lemma LastOccurrenceAt(a: string, pat: string, b: string)
    requires |pat| > 0 && OccursAt(b, pat, 0)
    requires forall k :: 1 <= k <= |b| - |pat| ==> b[k] != pat[0]
    ensures LastIndexOf(a + b, pat) == |a|
  {
    var s := a + b;
    assert s[|a|..|a| + |pat|] == b[..|pat|];
    assert OccursAt(s, pat, |a|);
    forall j | |a| < j ensures !OccursAt(s, pat, j) {
      assert j + |pat| <= |s| ==> s[j..j + |pat|][0] == b[j - |a|];
    }
  }

  lemma RemotingUriHeadParts()
    ensures RemotingUriHead == "service:" + RmiConnectorMarker + ":///jndi/"
  {
  }

  lemma DefaultRegistryLocationParts()
    ensures DefaultRegistryLocation == RmiScheme + "localhost:1099/server"
    ensures forall k :: 1 <= k <= 21 ==> DefaultRegistryLocation[k] != 'r'
  {
  }

  /** The default URL names the RMI connector. */
  lemma DefaultRemotingUriIsRmi()
    ensures Contains(DefaultRemotingUri, RmiConnectorMarker)
  {
    RemotingUriHeadParts();
    assert DefaultRemotingUri == "service:" + RmiConnectorMarker + (":///jndi/" + DefaultRegistryLocation);
    assert DefaultRemotingUri[8..15] == RmiConnectorMarker;
    assert OccursAt(DefaultRemotingUri, RmiConnectorMarker, 8);
  }

  /** With the default URL the registry URI is the one for localhost:1099. */
  lemma DefaultRegistryUri()
    ensures RegistryUri(DefaultRemotingUri) == Some(DefaultRegistryLocation)
  {
    DefaultRegistryLocationParts();
    assert DefaultRegistryLocation[..|RmiScheme|] == RmiScheme;
    LastOccurrenceAt(RemotingUriHead, RmiScheme, DefaultRegistryLocation);
    assert DefaultRemotingUri[|RemotingUriHead|..] == DefaultRegistryLocation;
  }
}
