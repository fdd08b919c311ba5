/**
 * The JMX agent: its lifecycle (initialise, start, stop, dispose), the two listeners it hangs on
 * the Mule context, the registration of the management MBeans when the context starts, and their
 * removal when the context stops or the agent is disposed.
 */
module Agent {
  import opened Wrappers
  import opened Text
  import opened Naming
  import opened MBeanServers
  import opened Rmi

  const AgentName := "jmx-agent"
  /** RMIConnectorServer.JNDI_REBIND_ATTRIBUTE */
  const JndiRebindAttribute := "jmx.remote.jndi.rebind"
  /** JMXConnectorServer.AUTHENTICATOR */
  const AuthenticatorAttribute := "jmx.remote.authenticator"

  /** A connector server property: a plain value, or the password authenticator holding credentials. */
  datatype PropertyValue = Literal(text: string) | PasswordAuthenticator(credentials: map<string, string>)

  const DefaultConnectorServerProperties: map<string, PropertyValue> := map[JndiRebindAttribute := Literal("true")]

  /**
   * The properties start hands to the connector server factory: the configured map, or the defaults
   * when none is configured, with the authenticator entry put in when there are credentials.
   */
  function EffectiveProperties(props: Option<map<string, PropertyValue>>, credentials: map<string, string>)
    : map<string, PropertyValue>
  {
    var base := props.GetOr(DefaultConnectorServerProperties);
    if credentials == map[] then base else base[AuthenticatorAttribute := PasswordAuthenticator(credentials)]
  }

  /**
   * Without credentials the properties are used as they are; with credentials exactly one entry,
   * the authenticator, is added or replaced, and every other entry stays.
   */
  lemma EffectivePropertiesSpec(props: Option<map<string, PropertyValue>>, credentials: map<string, string>)
    ensures var m := EffectiveProperties(props, credentials);
      var base := props.GetOr(DefaultConnectorServerProperties);
      && (credentials == map[] ==> m == base)
      && (credentials != map[] ==>
            m.Keys == base.Keys + {AuthenticatorAttribute}
            && m[AuthenticatorAttribute] == PasswordAuthenticator(credentials))
      && (forall k :: k in base && k != AuthenticatorAttribute ==> k in m && m[k] == base[k])
  {
  }

  /** With no configured properties the connector server gets JNDI rebinding on, and at most the authenticator besides. */
  lemma DefaultPropertiesRebind(credentials: map<string, string>)
    ensures var m := EffectiveProperties(None, credentials);
      && JndiRebindAttribute in m && m[JndiRebindAttribute] == Literal("true")
      && (forall k :: k in m ==> k == JndiRebindAttribute || (k == AuthenticatorAttribute && credentials != map[]))
      && (AuthenticatorAttribute in m <==> credentials != map[])
  {
  }

  /** StringUtils.isBlank on the configuration id; a missing id is blank. */
  predicate BlankId(id: Option<string>) {
    id.None? || Blank(id.value)
  }

  /** The action of a MuleContextNotification. */
  datatype Action = ContextStarted | ContextStopped | OtherAction(code: int)

  /** The two listener classes the agent registers with the Mule context. */
  datatype Listener = StartedListener | StoppedListener

  /** A listener reacts to exactly one action. */
  predicate Fires(listener: Listener, action: Action) {
    match listener
    case StartedListener => action == ContextStarted
    case StoppedListener => action == ContextStopped
  }

  /** What the agent uses of the Mule context: configuration id, agent registry, listeners and the object catalog. */
  class MuleContext {
    /** getConfiguration().getId() */
    const configurationId: Option<string>
    /** whether registerListener accepts listeners (it throws NotificationException otherwise) */
    const acceptsListeners: bool
    /** what lookupObjects returns for Model, Service and Connector */
    const models: seq<Model>
    const services: seq<string>
    const connectors: seq<Connector>
    /** names of the agents in the registry */
    var agents: set<string>
    var listeners: seq<Listener>

    constructor (configurationId: Option<string>, acceptsListeners: bool, models: seq<Model>,
                 services: seq<string>, connectors: seq<Connector>, agents: set<string>)
      ensures this.configurationId == configurationId && this.acceptsListeners == acceptsListeners
      ensures this.models == models && this.services == services && this.connectors == connectors
      ensures this.agents == agents && listeners == []
    {
      this.configurationId := configurationId;
      this.acceptsListeners := acceptsListeners;
      this.models := models;
      this.services := services;
      this.connectors := connectors;
      this.agents := agents;
      listeners := [];
    }

    method RegisterListener(listener: Listener) returns (ok: bool)
      modifies this`listeners
      ensures ok == acceptsListeners
      ensures listeners == if ok then old(listeners) + [listener] else old(listeners)
    {
      ok := acceptsListeners;
      if ok {
        listeners := listeners + [listener];
      }
    }

    method RegisterAgent(name: string)
      modifies this`agents
      ensures agents == old(agents) + {name}
    {
      agents := agents + {name};
    }
  }

  /** A JMX connector server as made by JMXConnectorServerFactory: what it was built with, and whether it runs. */
  class ConnectorServer {
    const url: string
    const properties: map<string, PropertyValue>
    const server: MBeanServer?
    var active: bool

    constructor (url: string, properties: map<string, PropertyValue>, server: MBeanServer?)
      ensures this.url == url && this.properties == properties && this.server == server && !active
    {
      this.url := url;
      this.properties := properties;
      this.server := server;
      active := false;
    }

    /** start: a running server stays running; otherwise it runs unless starting fails (IOException). */
    method Start(ok: bool) returns (r: Outcome<string>)
      modifies this`active
      ensures active == (old(active) || ok)
      ensures r.Pass? == active
    {
      if !active && !ok {
        return Fail("cannot start connector server");
      }
      active := true;
      r := Pass;
    }

    /** stop: the server stops unless stopping fails. */
    method Stop(ok: bool) returns (r: Outcome<string>)
      modifies this`active
      ensures active == (old(active) && !ok)
      ensures r.Pass? == ok
    {
      if !ok {
        return Fail("cannot stop connector server");
      }
      active := false;
      r := Pass;
    }
  }

  /**
   * What start needs from the JMX remote API: whether a JMXServiceURL can be built from the
   * configured URL, whether the factory builds a connector server, and whether it starts.
   */
  datatype ConnectorEnv = ConnectorEnv(validUrl: string -> bool, factoryOk: bool, startOk: bool)

  class JmxAgent {
    const name: string
    var locateServer: bool
    var createServer: bool
    var connectorServerUrl: Option<string>
    var mBeanServer: MBeanServer?
    var connectorServer: ConnectorServer?
    var connectorServerProperties: Option<map<string, PropertyValue>>
    var enableStatistics: bool
    var serverCreated: bool
    var initialized: bool
    const support: JmxSupport
    const beans: WrapperNames
    var rmiRegistry: Option<Registry>
    var createRmiRegistry: bool
    var credentials: map<string, string>
    const context: MuleContext

    /**
     * Only a server this agent created is marked as created (and it is never the shared platform
     * server); an initialised agent has a server.
     */
    ghost predicate Valid()
      reads this, mBeanServer
    {
      && (serverCreated ==> mBeanServer != null && !mBeanServer.shared)
      && (initialized ==> mBeanServer != null)
    }

    /** The defaults a new agent starts from. */
    constructor (context: MuleContext, support: JmxSupport, beans: WrapperNames)
      ensures Valid()
      ensures name == AgentName && locateServer && !createServer && connectorServerUrl == None
      ensures mBeanServer == null && connectorServer == null
      ensures connectorServerProperties == Some(DefaultConnectorServerProperties)
      ensures enableStatistics && !serverCreated && !initialized
      ensures rmiRegistry == None && createRmiRegistry && credentials == map[]
      ensures this.context == context && this.support == support && this.beans == beans
    {
      name := AgentName;
      locateServer := true;
      createServer := false;
      connectorServerUrl := None;
      mBeanServer := null;
      connectorServer := null;
      connectorServerProperties := Some(DefaultConnectorServerProperties);
      enableStatistics := true;
      serverCreated := false;
      initialized := false;
      this.support := support;
      this.beans := beans;
      rmiRegistry := None;
      createRmiRegistry := true;
      credentials := map[];
      this.context := context;
    }

    /**
     * initialise: nothing to do once initialised. Otherwise a server is created when asked (and
     * marked as created), else the platform server is located when allowed; without a server, or
     * with a blank configuration id, or when the context refuses listeners, initialisation fails
     * and the agent stays uninitialised. On success both listeners are registered, in order.
     */
    method Initialise(platform: MBeanServer, cascades: map<string, set<string>>, vetoes: set<string>)
      returns (r: Outcome<string>)
      requires Valid() && platform.shared
      modifies this`mBeanServer, this`serverCreated, this`initialized, context`listeners
      ensures Valid()
      ensures old(initialized) ==>
        && r.Pass? && initialized && mBeanServer == old(mBeanServer) && serverCreated == old(serverCreated)
        && context.listeners == old(context.listeners)
      ensures !old(initialized) && old(mBeanServer) != null ==>
        mBeanServer == old(mBeanServer) && serverCreated == old(serverCreated)
      ensures !old(initialized) && old(mBeanServer) == null && createServer ==>
        && mBeanServer != null && fresh(mBeanServer) && serverCreated
        && mBeanServer.names == {} && mBeanServer.dependents == cascades && mBeanServer.vetoed == vetoes
        && !mBeanServer.shared && !mBeanServer.released
      ensures !old(initialized) && old(mBeanServer) == null && !createServer && locateServer ==>
        mBeanServer == platform && serverCreated == old(serverCreated)
      ensures !old(initialized) && old(mBeanServer) == null && !createServer && !locateServer ==>
        mBeanServer == null && serverCreated == old(serverCreated)
      ensures !old(initialized) ==>
        && (r.Pass? <==> mBeanServer != null && !BlankId(context.configurationId) && context.acceptsListeners)
        && initialized == r.Pass?
        && context.listeners == if r.Pass? then old(context.listeners) + [StartedListener, StoppedListener]
                                else old(context.listeners)
    {
      if initialized {
        return Pass;
      }
      if mBeanServer == null && createServer {
        mBeanServer := new MBeanServer({}, cascades, vetoes, false);
        serverCreated := true;
      }
      if mBeanServer == null && locateServer {
        mBeanServer := platform;
      }
      if mBeanServer == null {
        return Fail("cannot locate or create MBean server");
      }
      if BlankId(context.configurationId) {
        return Fail("Manager ID is mandatory when running with JmxAgent");
      }
      var ok := context.RegisterListener(StartedListener);
      if !ok {
        return Fail("cannot register context started listener");
      }
      ok := context.RegisterListener(StoppedListener);
      initialized := true;
      r := Pass;
    }

    /** getDescription of this agent: its own name and configured connector URL. */
    function Description(): string
      reads this
    {
      Naming.Description(name, connectorServerUrl)
    }

    /** What initRMI does from the current state. */
    function RegistryStep(env: RmiEnv): Resolution
      reads this
    {
      ResolveRegistry(rmiRegistry, connectorServerUrl, createRmiRegistry, env)
    }

    /** initRMI, step by step; the registry it leaves and its outcome are those of ResolveRegistry. */
    method InitRmi(env: RmiEnv) returns (r: Outcome<string>)
      modifies this`rmiRegistry
      ensures rmiRegistry == old(RegistryStep(env)).registry
      ensures r.Pass? == old(RegistryStep(env)).ok
    {
      var connectUri := if connectorServerUrl.Some? then connectorServerUrl.value else DefaultRemotingUri;
      if Contains(connectUri, RmiConnectorMarker) {
        var i := LastIndexOf(connectUri, RmiScheme);
        if i == -1 {
          return Fail("no rmi:// in connector URL");
        }
        var uri := env.parseUri(connectUri[i..]);
        if uri.None? {
          return Fail("invalid registry URI");
        }
        var at := uri.value;
        if rmiRegistry.None? {
          var attach := true;
          if createRmiRegistry {
            var created := env.create(at.port);
            if created == Created {
              rmiRegistry := Some(CreatedAt(at.port));
              attach := false;
            } else if created == CreateFailed {
              return Fail("cannot create RMI registry");
            }
          }
          if attach {
            if !env.locate(at.host, at.port) {
              return Fail("cannot locate RMI registry");
            }
            rmiRegistry := Some(LocatedAt(at.host, at.port));
          }
        }
      }
      r := Pass;
    }

    /**
     * start: after initRMI, a connector server is built only for a configured URL. Missing
     * properties are reset to the defaults and the authenticator is put in when there are
     * credentials (both kept in the agent); the new connector server is kept even if it then
     * fails to start.
     */
    method Start(rmi: RmiEnv, conn: ConnectorEnv) returns (r: Outcome<string>)
      modifies this`rmiRegistry, this`connectorServerProperties, this`connectorServer
      ensures rmiRegistry == old(RegistryStep(rmi)).registry
      ensures !old(RegistryStep(rmi)).ok ==>
        r.Fail? && connectorServerProperties == old(connectorServerProperties) && connectorServer == old(connectorServer)
      ensures old(RegistryStep(rmi)).ok && connectorServerUrl.None? ==>
        r.Pass? && connectorServerProperties == old(connectorServerProperties) && connectorServer == old(connectorServer)
      ensures old(RegistryStep(rmi)).ok && connectorServerUrl.Some? && !conn.validUrl(connectorServerUrl.value) ==>
        r.Fail? && connectorServerProperties == old(connectorServerProperties) && connectorServer == old(connectorServer)
      ensures old(RegistryStep(rmi)).ok && connectorServerUrl.Some? && conn.validUrl(connectorServerUrl.value) ==>
        && connectorServerProperties == Some(EffectiveProperties(old(connectorServerProperties), credentials))
        && (!conn.factoryOk ==> r.Fail? && connectorServer == old(connectorServer))
        && (conn.factoryOk ==>
              && connectorServer != null && fresh(connectorServer)
              && connectorServer.url == connectorServerUrl.value
              && connectorServer.properties == connectorServerProperties.value
              && connectorServer.server == mBeanServer
              && connectorServer.active == conn.startOk
              && r.Pass? == conn.startOk)
    {
      r := InitRmi(rmi);
      if r.Fail? {
        return;
      }
      if connectorServerUrl.Some? {
        var url := connectorServerUrl.value;
        if !conn.validUrl(url) {
          return Fail("malformed connector URL");
        }
        if connectorServerProperties.None? {
          connectorServerProperties := Some(DefaultConnectorServerProperties);
        }
        if credentials != map[] {
          connectorServerProperties :=
            Some(connectorServerProperties.value[AuthenticatorAttribute := PasswordAuthenticator(credentials)]);
        }
        if !conn.factoryOk {
          return Fail("cannot create connector server");
        }
        connectorServer := new ConnectorServer(url, connectorServerProperties.value, mBeanServer);
        r := connectorServer.Start(conn.startOk);
      }
    }

    /** stop: stops the connector server when there is one; otherwise there is nothing to do. */
    method Stop(stopOk: bool) returns (r: Outcome<string>)
      modifies connectorServer
      ensures connectorServer == null ==> r.Pass?
      ensures connectorServer != null ==>
        connectorServer.active == (old(connectorServer.active) && !stopOk) && r.Pass? == stopOk
    {
      if connectorServer == null {
        return Pass;
      }
      r := connectorServer.Stop(stopOk);
    }

    /**
     * What the unregistration sweep leaves on `server`, which held `before`: no name is added, a
     * name outside the agent's domain goes only as the dependent of a domain name that went, and of
     * the domain only names whose MBeans refused to go remain; a malformed query pattern leaves
     * everything.
     */
    ghost predicate Swept(server: MBeanServer, before: set<string>)
      reads server
    {
      && server.names <= before
      && OutsideGoneByCascade(before, server.names, server.dependents, support.domain)
      && (support.wellFormed(QueryPattern(support)) ==>
            server.Query(support.domain) <= QueryNames(before, support.domain) * server.vetoed)
      && (!support.wellFormed(QueryPattern(support)) ==> server.names == before)
    }

    /**
     * unregisterMBeansIfNecessary: while the domain query returns a name not yet tried in vain,
     * unregister it (a failure is logged and the name is not tried again) and query again.
     */
    method UnregisterMBeansIfNecessary()
      modifies {mBeanServer}`names
      ensures mBeanServer != null ==> Swept(mBeanServer, old(mBeanServer.names))
    {
      var server := mBeanServer;
      if server == null {
        return;
      }
      if !support.wellFormed(QueryPattern(support)) {
        return;
      }
      var domain := support.domain;
      var failed: set<string> := {};
      var pending := server.Query(domain);
      while pending - failed != {}
        invariant pending == server.Query(domain)
        invariant failed <= server.vetoed
        invariant server.names <= old(server.names)
        invariant OutsideGoneByCascade(old(server.names), server.names, server.dependents, domain)
        decreases |pending - failed|
      {
        ghost var left := pending - failed;
        ghost var before := server.names;
        var n :| n in pending - failed;
        var ok := server.UnregisterMBean(n);
        if !ok {
          failed := failed + {n};
        }
        pending := server.Query(domain);
        if ok {
          QueryNamesMonotone(server.names, before - {n}, domain);
        }
        StrictSubsetCardinality(pending - failed, left, n);
      }
      QueryNamesMonotone(server.names, old(server.names), domain);
    }

    /**
     * Registers `todo` in order, stopping at the first name getObjectName rejects or the server
     * already holds. Without a server only an empty list succeeds (registerMBean would throw
     * NullPointerException).
     */
    method RegisterNames(todo: seq<string>) returns (ok: bool)
      modifies {mBeanServer}`names
      ensures mBeanServer != null ==>
        Registration(mBeanServer.names, ok) == RegisterInOrder(old(mBeanServer.names), todo, support.wellFormed)
      ensures mBeanServer == null ==> ok == (todo == [])
    {
      var server := mBeanServer;
      if server == null {
        return todo == [];
      }
      var i := 0;
      while i < |todo|
        invariant 0 <= i <= |todo|
        invariant RegisterInOrder(old(server.names), todo, support.wellFormed)
               == RegisterInOrder(server.names, todo[i..], support.wellFormed)
      {
        assert todo[i..][1..] == todo[i + 1..];
        if !support.wellFormed(todo[i]) {
          return false;
        }
        var added := server.RegisterMBean(todo[i]);
        if !added {
          return false;
        }
        i := i + 1;
      }
      ok := true;
    }

    /** registerWrapperService: the wrapper manager agent is registered unless the registry has one of that name. */
    method RegisterWrapperService()
      modifies context`agents
      ensures context.agents == old(context.agents) + {beans.wrapperAgent}
    {
      if beans.wrapperAgent !in context.agents {
        context.RegisterAgent(beans.wrapperAgent);
      }
    }

    method RegisterStatisticsService() returns (ok: bool)
      modifies {mBeanServer}`names
      ensures mBeanServer != null ==>
        Registration(mBeanServer.names, ok) == RegisterInOrder(old(mBeanServer.names), [QualifiedName(support, beans.statistics)], support.wellFormed)
      ensures mBeanServer == null ==> !ok
    {
      ok := RegisterNames([QualifiedName(support, beans.statistics)]);
    }

    method RegisterMuleService() returns (ok: bool)
      modifies {mBeanServer}`names
      ensures mBeanServer != null ==>
        Registration(mBeanServer.names, ok) == RegisterInOrder(old(mBeanServer.names), [QualifiedName(support, beans.mule)], support.wellFormed)
      ensures mBeanServer == null ==> !ok
    {
      ok := RegisterNames([QualifiedName(support, beans.mule)]);
    }

    method RegisterConfigurationService() returns (ok: bool)
      modifies {mBeanServer}`names
      ensures mBeanServer != null ==>
        Registration(mBeanServer.names, ok) == RegisterInOrder(old(mBeanServer.names), [QualifiedName(support, beans.configuration)], support.wellFormed)
      ensures mBeanServer == null ==> !ok
    {
      ok := RegisterNames([QualifiedName(support, beans.configuration)]);
    }

    /** registerModelServices: one name per model, from its name and type. */
    method RegisterModelServices() returns (ok: bool)
      modifies {mBeanServer}`names
      ensures mBeanServer != null ==>
        Registration(mBeanServer.names, ok) == RegisterInOrder(old(mBeanServer.names), ModelNames(support, beans, context.models), support.wellFormed)
      ensures mBeanServer == null ==> ok == (context.models == [])
    {
      ok := RegisterNames(ModelNames(support, beans, context.models));
    }

    /** registerServiceServices: one name per service. */
    method RegisterServiceServices() returns (ok: bool)
      modifies {mBeanServer}`names
      ensures mBeanServer != null ==>
        Registration(mBeanServer.names, ok) == RegisterInOrder(old(mBeanServer.names), ServiceNames(support, beans, context.services), support.wellFormed)
      ensures mBeanServer == null ==> ok == (context.services == [])
    {
      ok := RegisterNames(ServiceNames(support, beans, context.services));
    }

    /** registerEndpointServices: one name per receiver of every AbstractConnector, connector by connector. */
    method RegisterEndpointServices() returns (ok: bool)
      modifies {mBeanServer}`names
      ensures mBeanServer != null ==>
        Registration(mBeanServer.names, ok) == RegisterInOrder(old(mBeanServer.names), EndpointNames(support, context.connectors), support.wellFormed)
      ensures mBeanServer == null ==> ok == (EndpointNames(support, context.connectors) == [])
    {
      ok := RegisterNames(EndpointNames(support, context.connectors));
    }

    /** registerConnectorServices: one name per connector. */
    method RegisterConnectorServices() returns (ok: bool)
      modifies {mBeanServer}`names
      ensures mBeanServer != null ==>
        Registration(mBeanServer.names, ok) == RegisterInOrder(old(mBeanServer.names), ConnectorNames(support, beans, context.connectors), support.wellFormed)
      ensures mBeanServer == null ==> ok == (context.connectors == [])
    {
      ok := RegisterNames(ConnectorNames(support, beans, context.connectors));
    }

    /**
     * The started listener's work: the wrapper agent, then the MBean names of the phase in their
     * fixed order; the first failure aborts the rest and the names registered before it stay.
     */
    method OnContextStarted() returns (r: Outcome<string>)
      modifies context`agents, {mBeanServer}`names
      ensures context.agents == old(context.agents) + {beans.wrapperAgent}
      ensures mBeanServer != null ==>
        Registration(mBeanServer.names, r.Pass?) ==
          RegisterInOrder(old(mBeanServer.names),
                          PhaseNames(support, beans, context.models, context.services, context.connectors),
                          support.wellFormed)
      ensures mBeanServer == null ==> r.Fail?
    {
      RegisterWrapperService();
      var server := mBeanServer;
      ghost var start := if server != null then server.names else {};
      var ok := RegisterStatisticsService();
      ghost var done := [QualifiedName(support, beans.statistics)];
      ghost var step: seq<string>;

      step := [QualifiedName(support, beans.mule)];
      if ok { ok := RegisterMuleService(); }
      if server != null { RegisterInOrderAppend(start, done, step, support.wellFormed); }
      done := done + step;

      step := [QualifiedName(support, beans.configuration)];
      if ok { ok := RegisterConfigurationService(); }
      if server != null { RegisterInOrderAppend(start, done, step, support.wellFormed); }
      done := done + step;

      step := ModelNames(support, beans, context.models);
      if ok { ok := RegisterModelServices(); }
      if server != null { RegisterInOrderAppend(start, done, step, support.wellFormed); }
      done := done + step;

      step := ServiceNames(support, beans, context.services);
      if ok { ok := RegisterServiceServices(); }
      if server != null { RegisterInOrderAppend(start, done, step, support.wellFormed); }
      done := done + step;

      step := EndpointNames(support, context.connectors);
      if ok { ok := RegisterEndpointServices(); }
      if server != null { RegisterInOrderAppend(start, done, step, support.wellFormed); }
      done := done + step;

      step := ConnectorNames(support, beans, context.connectors);
      if ok { ok := RegisterConnectorServices(); }
      if server != null { RegisterInOrderAppend(start, done, step, support.wellFormed); }
      done := done + step;

      r := if ok then Pass else Fail("MBeans failed to initialise");
    }

    /**
     * onNotification of either listener: the started listener registers the phase on
     * CONTEXT_STARTED, the stopped listener sweeps the domain on CONTEXT_STOPPED, and any other
     * action is ignored.
     */
    method OnNotification(listener: Listener, action: Action) returns (r: Outcome<string>)
      modifies context`agents, {mBeanServer}`names
      ensures !Fires(listener, action) ==>
        r.Pass? && context.agents == old(context.agents)
        && (mBeanServer != null ==> mBeanServer.names == old(mBeanServer.names))
      ensures Fires(listener, action) && listener == StartedListener ==>
        && context.agents == old(context.agents) + {beans.wrapperAgent}
        && (mBeanServer != null ==>
              Registration(mBeanServer.names, r.Pass?) ==
                RegisterInOrder(old(mBeanServer.names),
                                PhaseNames(support, beans, context.models, context.services, context.connectors),
                                support.wellFormed))
        && (mBeanServer == null ==> r.Fail?)
      ensures Fires(listener, action) && listener == StoppedListener ==>
        r.Pass? && context.agents == old(context.agents)
        && (mBeanServer != null ==> Swept(mBeanServer, old(mBeanServer.names)))
    {
      r := Pass;
      if Fires(listener, action) {
        match listener
        case StartedListener =>
          r := OnContextStarted();
        case StoppedListener =>
          UnregisterMBeansIfNecessary();
      }
    }

    /**
     * dispose: sweeps the domain, releases the server only if this agent created it (a located
     * platform server is never released), and forgets the server, so the agent can be initialised
     * again.
     */
    method Dispose()
      requires Valid()
      modifies this`mBeanServer, this`serverCreated, this`initialized, {mBeanServer}`names, {mBeanServer}`released
      ensures Valid()
      ensures mBeanServer == null && !serverCreated && !initialized
      ensures old(mBeanServer) != null ==>
        && old(mBeanServer).released == (old(mBeanServer.released) || old(serverCreated))
        && Swept(old(mBeanServer), old(mBeanServer.names))
      ensures old(mBeanServer) != null && old(mBeanServer).shared ==>
        old(mBeanServer).released == old(mBeanServer.released)
    {
      UnregisterMBeansIfNecessary();
      if serverCreated {
        mBeanServer.Release();
      }
      mBeanServer := null;
      serverCreated := false;
      initialized := false;
    }

    /** setCredentials: the credentials are cleared, then refilled from a non-empty map. */
    method SetCredentials(newCredentials: Option<map<string, string>>)
      modifies this`credentials
      ensures credentials == newCredentials.GetOr(map[])
    {
      credentials := map[];
      if newCredentials.Some? && newCredentials.value != map[] {
        credentials := credentials + newCredentials.value;
      }
    }
  }
}
