# JmxAgent, modelled in Dafny

This project models Mule's `JmxAgent`. The agent publishes Mule's management MBeans into a JMX MBean server and exposes them through a JMX connector server. The model covers the agent's lifecycle:

- `initialise` picks the MBean server: it creates one, or locates the platform server, or fails.
- `start` resolves the RMI registry (`initRMI`) and builds the connector server.
- `stop` stops the connector server.
- `dispose` sweeps the agent's domain and releases the server only if the agent created it.

The model also covers:

- the two listeners the agent registers on the Mule context;
- the registration phase that runs when the context starts;
- the unregistration sweep that runs when the context stops;
- the name builders behind every registered ObjectName.

The model has six modules:

| module | file | contents |
|---|---|---|
| `Wrappers` | `wrappers.dfy` | `Option` (a Java reference that may be null) and `Outcome` (a method that returns normally or throws) |
| `Text` | `text.dfy` | `indexOf`, `lastIndexOf`, `contains` and `StringUtils.isBlank`, specified over `seq<char>` |
| `Naming` | `naming.dfy` | ObjectName strings `<domain>:<keys>`, the `"%s:%s%s"` prefixed names, the endpoint name and a parser that reads it back, the names of the registration phase, and `getDescription` |
| `MBeanServers` | `mbean_server.dfy` | the MBean server as a class over a set of names, the specification of in-order registration, and the unregistration loop as written |
| `Rmi` | `rmi.dfy` | the registry decision of `initRMI`, as a function over an abstract environment |
| `Agent` | `jmx_agent.dfy` | the Mule context, the connector server and the `JmxAgent` class with its lifecycle methods |

### How the model represents the environment

- **The MBean server** is a set of canonical name strings.
  - A query over `<domain>:*` returns the names whose domain is `domain`.
  - Registering a name that is already taken fails.
  - Unregistering a name may be refused by its MBean (the `vetoed` set).
  - Unregistering a name may also take the name's dependent MBeans with it (the `dependents` map). A cascade may reach names in any domain.
- **jmxSupport** is the datatype `JmxSupport`. Its three parts are left uninterpreted:
  - the domain (`getDomainName`);
  - `escape`;
  - whether `getObjectName` accepts a string.
- **Library calls outside the agent** become parameters describing their outcomes:
  - the URI parser, `LocateRegistry.createRegistry` and `getRegistry` (`RmiEnv`);
  - `JMXServiceURL`, `JMXConnectorServerFactory` and `JMXConnectorServer.start` (`ConnectorEnv`);
  - the platform server, and the dependents and vetoes of a server created by `MBeanServerFactory` (arguments of `Initialise`).
- **The wrapper MBeans' `DEFAULT_JMX_NAME` constants** and the wrapper agent's name are the datatype `WrapperNames`, because their files are not part of this model.

The unregistration loop at `JmxAgent.java:599` exits only when the domain query comes back empty. It never gets there when an MBean refuses to go; see "## Findings". The model follows the code in `MBeanServers.AsWrittenUnregister`. It uses a loop that terminates in `Agent.JmxAgent.UnregisterMBeansIfNecessary`.

## Model

The source file of every row is `modules/management/src/main/java/org/mule/module/management/agent/JmxAgent.java`.

| member | source | states |
|---|---|---|
| `Text.Contains` | modules/management/src/main/java/org/mule/module/management/agent/JmxAgent.java:234 | `contains` is true exactly when the pattern occurs at some index |
| `Text.LastIndexOf` | modules/management/src/main/java/org/mule/module/management/agent/JmxAgent.java:236 | `lastIndexOf` is -1 exactly when the pattern never occurs; otherwise it is an occurrence with none after it |
| `Text.Blank` | modules/management/src/main/java/org/mule/module/management/agent/JmxAgent.java:210 | `isBlank` holds exactly when every character is Java whitespace |
| `Naming.DomainOfSpec` | modules/management/src/main/java/org/mule/module/management/agent/JmxAgent.java:597-598 | a name has a domain exactly when it contains a ':'; the domain is the colon-free text before the first ':' |
| `Naming.DomainOfQualified` | modules/management/src/main/java/org/mule/module/management/agent/JmxAgent.java:597 | every `<domain>:<keys>` name lies in its domain, so the domain-wide query matches it |
| `Naming.QualifiedName` | modules/management/src/main/java/org/mule/module/management/agent/JmxAgent.java:367-409 | computes `String.format("%s:%s", domain, name)`: the domain, a colon, then the key list, as the statistics, mule and configuration services build their names at lines 370, 396 and 405 |
| `Naming.QueryPattern` | modules/management/src/main/java/org/mule/module/management/agent/JmxAgent.java:597 | computes the sweep's query string, `<domain>:*` |
| `Naming.PrefixedName` | modules/management/src/main/java/org/mule/module/management/agent/JmxAgent.java:384-386 | computes the `"%s:%s%s"` name: the domain, a colon, the category prefix, then the escaped raw name; `PrefixedNameInjective` and the `*NamesInDomain` lemmas state its properties |
| `Naming.ModelName` | modules/management/src/main/java/org/mule/module/management/agent/JmxAgent.java:383-386 | computes a model's name: the model prefix followed by the escaped `name(type)` |
| `Naming.ServiceName` | modules/management/src/main/java/org/mule/module/management/agent/JmxAgent.java:416-418 | computes a service's name: the service prefix followed by the escaped service name |
| `Naming.ConnectorName` | modules/management/src/main/java/org/mule/module/management/agent/JmxAgent.java:482-485 | computes a connector's name: the connector prefix followed by the escaped connector name |
| `Naming.EndpointName` | modules/management/src/main/java/org/mule/module/management/agent/JmxAgent.java:459-472 | computes `buildFullyQualifiedEndpointName`: `<domain>:type=org.mule.Endpoint,service=<escaped service>,connector=<connector name>,name=<escaped receiver name>`, the connector name left unescaped; the parser lemmas below read it back |
| `Naming.ModelNames` | modules/management/src/main/java/org/mule/module/management/agent/JmxAgent.java:381-390 | computes the model names registered by the loop at line 381: one `ModelName` per model, in catalogue order |
| `Naming.ServiceNames` | modules/management/src/main/java/org/mule/module/management/agent/JmxAgent.java:414-423 | computes the service names registered by the loop at line 414: one `ServiceName` per service, in catalogue order |
| `Naming.ConnectorNames` | modules/management/src/main/java/org/mule/module/management/agent/JmxAgent.java:480-493 | computes the connector names registered by the loop at line 480: one `ConnectorName` per connector, in catalogue order |
| `Naming.ReceiverNames` | modules/management/src/main/java/org/mule/module/management/agent/JmxAgent.java:433-447 | computes the endpoint names of one AbstractConnector: one `EndpointName` per receiver, in the order of its receivers |
| `Naming.EndpointNames` | modules/management/src/main/java/org/mule/module/management/agent/JmxAgent.java:429-456 | computes the endpoint names registered by the nested loop: for each connector in catalogue order, its receivers' names when it is an AbstractConnector (line 431), and nothing for any other connector (lines 451-455) |
| `Naming.PrefixedNameInjective` | modules/management/src/main/java/org/mule/module/management/agent/JmxAgent.java:384-386 | two `"%s:%s%s"` names with the same category prefix coincide only when the escaped raw names coincide |
| `Naming.EndpointKeyRoundTrip` | modules/management/src/main/java/org/mule/module/management/agent/JmxAgent.java:459-472 | the endpoint name reads back to its escaped service, its connector and its escaped receiver name, whenever the escaped parts contain no ',' |
| `Naming.ParseEndpointNameSound` | modules/management/src/main/java/org/mule/module/management/agent/JmxAgent.java:459-472 | every string the endpoint parser accepts has the exact form `domain:type=org.mule.Endpoint,service=S,connector=C,name=N` |
| `Naming.EndpointNameDistinguishes` | modules/management/src/main/java/org/mule/module/management/agent/JmxAgent.java:461-470 | if escaping never yields ',', equal endpoint names mean equal escaped services, equal unescaped connector names and equal escaped receiver names |
| `Naming.ModelNamesInDomain` | modules/management/src/main/java/org/mule/module/management/agent/JmxAgent.java:381-390 | every model name, built from `name(type)`, lies in the agent's domain |
| `Naming.ServiceNamesInDomain` | modules/management/src/main/java/org/mule/module/management/agent/JmxAgent.java:414-423 | every service name lies in the agent's domain |
| `Naming.EndpointNamesInDomain` | modules/management/src/main/java/org/mule/module/management/agent/JmxAgent.java:429-456 | every endpoint name, one per receiver of each AbstractConnector, lies in the agent's domain |
| `Naming.ConnectorNamesInDomain` | modules/management/src/main/java/org/mule/module/management/agent/JmxAgent.java:480-493 | every connector name lies in the agent's domain |
| `Naming.PhaseNames` | modules/management/src/main/java/org/mule/module/management/agent/JmxAgent.java:651-658 | computes the names the started listener registers, in its fixed order: statistics, mule, configuration, then the models, services, endpoints and connectors in catalogue order |
| `Naming.PhaseNamesInDomain` | modules/management/src/main/java/org/mule/module/management/agent/JmxAgent.java:651-658 | every name of the registration phase is matched by the `<domain>:*` query, so the stopped listener and dispose sweep up everything the started listener registers |
| `Naming.Description` | modules/management/src/main/java/org/mule/module/management/agent/JmxAgent.java:139-149 | computes `getDescription`: `<name>: <url>` when a connector URL is configured, `JMX Agent` otherwise |
| `Naming.DescriptionIdentifiesUrl` | modules/management/src/main/java/org/mule/module/management/agent/JmxAgent.java:139-149 | the description tells any two configured connector URLs apart |
| `MBeanServers.MBeanServer.RegisterMBean` | modules/management/src/main/java/org/mule/module/management/agent/JmxAgent.java:375 | registration succeeds exactly when the name is free; a taken name is never overwritten |
| `MBeanServers.MBeanServer.UnregisterMBean` | modules/management/src/main/java/org/mule/module/management/agent/JmxAgent.java:604 | unregistering succeeds exactly when the name is registered and its MBean does not refuse; the name then goes together with its dependents |
| `MBeanServers.RegisterInOrder` | modules/management/src/main/java/org/mule/module/management/agent/JmxAgent.java:645-665 | computes a registration run: names are registered one by one; the first name that `getObjectName` rejects or the server already holds throws, and the run ends there without undoing the earlier ones |
| `MBeanServers.RegisterInOrderSpec` | modules/management/src/main/java/org/mule/module/management/agent/JmxAgent.java:649-663 | a registration run adds exactly the longest admissible prefix of its list, and succeeds exactly when that prefix is the whole list; there is no rollback |
| `MBeanServers.RegisterInOrderSucceeds` | modules/management/src/main/java/org/mule/module/management/agent/JmxAgent.java:649-663 | a run succeeds exactly when every name is accepted by `getObjectName`, is not yet registered and differs from every other name of the run; the server then holds all of them |
| `MBeanServers.RegisterInOrderKeeps` | modules/management/src/main/java/org/mule/module/management/agent/JmxAgent.java:649-663 | a run never removes a name and adds only names from its list |
| `MBeanServers.RegisterInOrderAppend` | modules/management/src/main/java/org/mule/module/management/agent/JmxAgent.java:651-658 | running two lists one after the other is running their concatenation: a failure in the first aborts the second |
| `MBeanServers.AsWrittenUnregister` | modules/management/src/main/java/org/mule/module/management/agent/JmxAgent.java:597-614 | computes at most `passes` passes of the loop as written: query the domain, stop when it is empty, otherwise unregister the name the iterator yields, ignore a failure and query again |
| `MBeanServers.AsWrittenLoopNeverEnds` | modules/management/src/main/java/org/mule/module/management/agent/JmxAgent.java:599-614 | as written, an MBean in the domain that refuses to go, and that no MBean takes down with it, stays in the query after any number of passes, whichever name the iterator yields |
| `MBeanServers.AsWrittenLoopEndsWithoutVetoes` | modules/management/src/main/java/org/mule/module/management/agent/JmxAgent.java:599-614 | as written, the loop empties the domain when no MBean in it refuses to go; one pass per registered name is enough |
| `MBeanServers.OutsideKept` | modules/management/src/main/java/org/mule/module/management/agent/JmxAgent.java:604 | when no cascade leaves the domain of the MBean that triggers it, a sweep whose only removals outside the domain are cascades keeps every name outside the domain |
| `Rmi.ResolveRegistry` | modules/management/src/main/java/org/mule/module/management/agent/JmxAgent.java:231-266 | computes initRMI's effect: nothing unless the URL (or the default) contains `jmx:rmi`; otherwise the URI from the last `rmi://` is parsed, a held registry is kept, and else a registry is created on the port (falling back to the one already bound there) or located; the `Rmi.Resolve*` lemmas state its properties |
| `Rmi.ResolveOutsideRmi` | modules/management/src/main/java/org/mule/module/management/agent/JmxAgent.java:233-234 | a URL (defaulting to `DEFAULT_REMOTING_URI`) that does not contain `jmx:rmi` leaves the registry alone and succeeds |
| `Rmi.ResolveKeepsHeld` | modules/management/src/main/java/org/mule/module/management/agent/JmxAgent.java:238-263 | a registry already held is never replaced, whatever the outcome |
| `Rmi.ResolveFailure` | modules/management/src/main/java/org/mule/module/management/agent/JmxAgent.java:236-262 | a failure leaves the registry as it was, and happens only for a `jmx:rmi` URL: no `rmi://`, an unparsable registry URI, or no registry held and none obtained |
| `Rmi.ResolveNewRegistry` | modules/management/src/main/java/org/mule/module/management/agent/JmxAgent.java:238-257 | a registry is recorded only when none was held. It is either created on the parsed port, or a stub for the parsed host and port, obtained directly or after the port turned out to be bound |
| `Rmi.ResolveFallsBack` | modules/management/src/main/java/org/mule/module/management/agent/JmxAgent.java:244-252 | on an export conflict the agent attaches once to the registry at the same host and port; if that fails, initRMI fails |
| `Rmi.RegistryUriSpec` | modules/management/src/main/java/org/mule/module/management/agent/JmxAgent.java:236-237 | the registry URI exists exactly when the URL contains `rmi://`; it is the URL's suffix from the last `rmi://` on, and contains no later `rmi://` |
| `Rmi.DefaultRemotingUriIsRmi` | modules/management/src/main/java/org/mule/module/management/agent/JmxAgent.java:85 | the default URL names the RMI connector, so initRMI acts when no URL is configured |
| `Rmi.DefaultRegistryUri` | modules/management/src/main/java/org/mule/module/management/agent/JmxAgent.java:233-237 | with the default URL the registry URI is `rmi://localhost:1099/server`, not the earlier `rmi:///jndi/...` |
| `Agent.EffectiveProperties` | modules/management/src/main/java/org/mule/module/management/agent/JmxAgent.java:277-289 | computes the properties `start` hands to the factory: the configured map, or the defaults for a null map, with the authenticator holding the credentials put in when there are any |
| `Agent.EffectivePropertiesSpec` | modules/management/src/main/java/org/mule/module/management/agent/JmxAgent.java:277-289 | without credentials the properties are used unchanged. With credentials exactly the authenticator entry is added or replaced, holding the credentials, and every other entry stays |
| `Agent.DefaultPropertiesRebind` | modules/management/src/main/java/org/mule/module/management/agent/JmxAgent.java:125-135 | the defaults turn JNDI rebinding on (`"true"`) and hold nothing else but the authenticator, which is there exactly when there are credentials |
| `Agent.BlankId` | modules/management/src/main/java/org/mule/module/management/agent/JmxAgent.java:210 | computes `StringUtils.isBlank(getId())`: a null id is blank, and so is an empty or all-whitespace one |
| `Agent.JmxAgent.constructor` | modules/management/src/main/java/org/mule/module/management/agent/JmxAgent.java:102-136 | a new agent is named `jmx-agent`, locates rather than creates a server, uses the default connector properties and statistics, creates an RMI registry, and has no server, URL, registry or credentials |
| `Agent.JmxAgent.Description` | modules/management/src/main/java/org/mule/module/management/agent/JmxAgent.java:139-149 | the description of this agent, from its own name and configured connector URL |
| `Agent.JmxAgent.Initialise` | modules/management/src/main/java/org/mule/module/management/agent/JmxAgent.java:166-229 | an initialised agent changes nothing; otherwise it creates a fresh unshared server (marked as created) when asked, else locates the platform server when allowed; it succeeds exactly when it has a server, a non-blank configuration id and listeners accepted, and only then sets `initialized` and appends both listeners (details below) |
| `Agent.JmxAgent.InitRmi` | modules/management/src/main/java/org/mule/module/management/agent/JmxAgent.java:231-266 | the registry left behind and the outcome are those of `Rmi.ResolveRegistry`, whose properties are the `Rmi.*` lemmas |
| `Agent.JmxAgent.Start` | modules/management/src/main/java/org/mule/module/management/agent/JmxAgent.java:268-304 | the registry step is `Rmi.ResolveRegistry`; a failure there or a malformed URL changes neither properties nor connector server; with a valid URL the properties become `EffectiveProperties` and a fresh connector server on them runs exactly when it starts (details below) |
| `Agent.JmxAgent.Stop` | modules/management/src/main/java/org/mule/module/management/agent/JmxAgent.java:306-319 | without a connector server nothing happens; otherwise the connector server stops, or a failure leaves it running |
| `Agent.JmxAgent.UnregisterMBeansIfNecessary` | modules/management/src/main/java/org/mule/module/management/agent/JmxAgent.java:588-620 | terminates; without a server, or with a malformed query pattern, nothing changes; otherwise no name is added, a name outside the domain goes only as the dependent of a domain name that went, and of the domain only refusing MBeans remain, so the query is empty when none refuses (details below) |
| `Agent.JmxAgent.RegisterNames` | modules/management/src/main/java/org/mule/module/management/agent/JmxAgent.java:375-493 | the registrations of the phase: the single registrations at lines 375, 399 and 408 and the loops at 381-390, 414-423, 429-456 and 480-493. The names registered and the outcome are exactly those of `RegisterInOrder`; without a server only an empty list succeeds |
| `Agent.JmxAgent.RegisterWrapperService` | modules/management/src/main/java/org/mule/module/management/agent/JmxAgent.java:357-365 | afterwards the registry holds the wrapper manager agent, added only if it was missing |
| `Agent.JmxAgent.RegisterStatisticsService` | modules/management/src/main/java/org/mule/module/management/agent/JmxAgent.java:367-376 | registers `<domain>:<statistics name>`, failing on a malformed or taken name |
| `Agent.JmxAgent.RegisterMuleService` | modules/management/src/main/java/org/mule/module/management/agent/JmxAgent.java:393-400 | registers `<domain>:<mule name>`, failing on a malformed or taken name |
| `Agent.JmxAgent.RegisterConfigurationService` | modules/management/src/main/java/org/mule/module/management/agent/JmxAgent.java:402-409 | registers `<domain>:<configuration name>`, failing on a malformed or taken name |
| `Agent.JmxAgent.RegisterModelServices` | modules/management/src/main/java/org/mule/module/management/agent/JmxAgent.java:378-391 | registers one name per model in catalogue order, stopping at the first failure |
| `Agent.JmxAgent.RegisterServiceServices` | modules/management/src/main/java/org/mule/module/management/agent/JmxAgent.java:411-424 | registers one name per service in catalogue order, stopping at the first failure |
| `Agent.JmxAgent.RegisterEndpointServices` | modules/management/src/main/java/org/mule/module/management/agent/JmxAgent.java:426-457 | registers one endpoint name per receiver of each AbstractConnector, skipping other connectors and stopping at the first failure |
| `Agent.JmxAgent.RegisterConnectorServices` | modules/management/src/main/java/org/mule/module/management/agent/JmxAgent.java:474-494 | registers one name per connector in catalogue order, stopping at the first failure |
| `Agent.JmxAgent.OnContextStarted` | modules/management/src/main/java/org/mule/module/management/agent/JmxAgent.java:645-665 | registers the wrapper agent, then exactly the `RegisterInOrder` run of the whole phase in its fixed order; the first failure aborts the rest, and without a server the phase fails |
| `Agent.JmxAgent.OnNotification` | modules/management/src/main/java/org/mule/module/management/agent/JmxAgent.java:642-678 | the started listener registers the phase on CONTEXT_STARTED, and the stopped listener sweeps the domain on CONTEXT_STOPPED and never fails; every other action changes nothing |
| `Agent.JmxAgent.Dispose` | modules/management/src/main/java/org/mule/module/management/agent/JmxAgent.java:324-334 | sweeps the domain, releases the server exactly when this agent created it (a shared server never), and leaves no server with `serverCreated` and `initialized` false, so the agent can be initialised again (details below) |
| `Agent.JmxAgent.SetCredentials` | modules/management/src/main/java/org/mule/module/management/agent/JmxAgent.java:579-586 | afterwards the credentials are exactly the given map, or empty for null |

**`Agent.JmxAgent.Initialise`** states:

- An initialised agent returns at once and changes nothing.
- Otherwise, without a server, it creates a fresh, empty, unshared server and marks it as created when `createServer` is set. Failing that, it takes the platform server when `locateServer` is set, leaving `serverCreated` unchanged. Failing both, it has no server.
- It succeeds exactly when it has a server, the configuration id is not blank, and the context accepts listeners.
- Only success sets `initialized`, and success appends both listeners, the started one first. A failure leaves the listeners as they were.
- It preserves `Valid()`: `serverCreated` implies a server that is not shared.

**`Agent.JmxAgent.Start`** states:

- It resolves the registry as `Rmi.ResolveRegistry` does.
- A failure there, or a malformed URL, changes neither the properties nor the connector server.
- Without a URL nothing is built.
- Otherwise, with a valid URL:
  - the properties become `EffectiveProperties`. The defaults replace a null map, and the authenticator is added for non-empty credentials.
  - when the factory succeeds, a fresh connector server is kept, built with the URL, those properties and this agent's MBean server. It runs exactly when it starts, and start succeeds exactly when it does.

**`Agent.JmxAgent.UnregisterMBeansIfNecessary`** states:

- Without a server, nothing happens.
- A malformed query pattern leaves every name.
- Otherwise, no name is added. A name outside the domain goes only when a domain name that went lists it as a dependent; with cascades that stay in their domain (`MBeanServers.OutsideKept`) every name outside the domain stays.
- Of the domain, only names whose MBeans refused to go remain. So the query is empty whenever no MBean in the domain refuses.
- A failed name does not stop the loop.
- The loop terminates.

**`Agent.JmxAgent.Dispose`** states:

- It sweeps the domain as above.
- It releases the server exactly when this agent created it. A shared platform server is never released.
- Afterwards there is no server, and `serverCreated` and `initialized` are false. That satisfies the precondition of `Initialise`, so the agent can be initialised again.

## Left out

- Agent.JmxAgent.UnregisterMBeansIfNecessary: does not try again a name whose unregistration failed, whereas the source retries it for ever. As a result, the domain query ends holding only refusing MBeans rather than empty (see "## Findings"). The loop as written is `MBeanServers.AsWrittenUnregister`. A refusal is also permanent in the model (`MBeanServer.vetoed` is constant), so an MBean that refuses only while another one is still registered, and that the source's re-query (lines 611-613) would remove on a later pass, stays.
- Registry self-lookup (`JmxAgent.java:175-184`): modelled as nothing. Its condition needs `initialized`, which line 168 has already ruled out.
- Commented-out call in `initialise` (line 185): not modelled, because it is dead code. The model's initialise calls no initRMI.
- `getDependentAgents`: not modelled. It returns the constant list `[RmiRegistryAgent]`; ordering agents by it is done by the Mule context, which is not part of this model.
- `registered` and `unregistered`: not modelled, because they are empty.
- `setMBeanServer`: not modelled. A caller could replace a server the agent created, and `dispose` would then release the caller's server; the model keeps the server under the agent's control.
- The other getters and setters: not modelled as members, because they are plain field reads and assignments. `setConnectorServerProperties(null)` is `None`.
- `setJmxSupportFactory`: not modelled. It does not change the `jmxSupport` computed at construction, so the model keeps `support` constant.
- `jmxSupport.escape`, `getDomainName` and `getObjectName`: uninterpreted. No escaping rule is assumed.
- ObjectName equality: compared as the built strings. JMX canonicalises key order, and the model does not.
- Wildcard characters in a domain: the query is an exact domain match, whereas `*` or `?` in a domain name would widen a JMX pattern.
- Names that appear during a sweep: not modelled. A cascade only removes names; an MBean that registers new names while being unregistered is not part of the model.
- The `JMImplementation` delegate MBean of a created server: not modelled, because it lies outside the agent's domain.
- The wrapper MBeans (`StatisticsService`, `ModelService` and the others): the server holds names only. Their state is not modelled, including the statistics MBean's `enabled` flag set from `enableStatistics`.
- `NotCompliantMBeanException`: not modelled, because the wrappers are compliant MBeans. Registration fails only for a malformed or taken name.
- `registerAgent` in `registerWrapperService`: modelled as always succeeding.
- `ClassUtils.instanciateClass` of the authenticator: taken to succeed.
- Sharing of the credentials map: the authenticator holds the credentials' value, so later changes to the agent's map are not seen through it.
- An unmodifiable properties map, on which `put` would throw: not modelled.
- `MuleContext.registerListener`: refuses either every listener or none, so a refusal of only the second listener is not modelled.
- Connector names: `ConnectorName` escapes `Connector.name`, the same string `EndpointName` uses unescaped for `connector.getName()` (line 468). The source escapes `new ConnectorService(connector).getName()` (lines 482-484), whose definition is not part of this model; the two are taken to be the same string.
- `lookupObjects` and `getReceivers().values()` (`JmxAgent.java:433`): the catalogues and each connector's receivers are sequences in a fixed order, read at event time. Java gives these collections no defined order, and which names get registered before a failure depends on it; the model covers one order at a time.
- `AtomicBoolean`: the flags are plain booleans. Concurrency is not modelled, and neither are the compare-and-set races between `initialise` and `dispose`.
- Logging, message texts and exception classes: every thrown exception is one `Fail` outcome. The wrapping into `JmxManagementException`, `InitialisationException` or `MuleRuntimeException` is not distinguished.

## Findings

| source | as written | input that shows it | evidently intended | confidence | as-written member | corrected member |
|---|---|---|---|---|---|---|
| modules/management/src/main/java/org/mule/module/management/agent/JmxAgent.java:599-614 | the loop queries the domain again after each attempt and runs while the query is not empty, logging a failed `unregisterMBean` and trying again | one MBean in the agent's domain whose `preDeregister` throws (`MBeanRegistrationException`) and that no other MBean unregisters: it stays registered, so the query never becomes empty and dispose or the stopped listener never returns | log the failure and go on with the other names, so that the sweep ends | not executed | `MBeanServers.AsWrittenLoopNeverEnds` | `Agent.JmxAgent.UnregisterMBeansIfNecessary` |
