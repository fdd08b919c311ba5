/**
 * How the agent names what it registers. Every name is a canonical ObjectName string
 * "<domain>:<key list>"; the domain, the escaping of raw names and the check that an
 * ObjectName can be built from a string come from jmxSupport and are left abstract.
 */
module Naming {
  import opened Wrappers
  import opened Text

  /**
   * The parts of jmxSupport the agent uses: getDomainName for this Mule context, escape,
   * and whether getObjectName accepts a string (otherwise it throws MalformedObjectNameException).
   */
  datatype JmxSupport = JmxSupport(domain: string, escape: string -> string, wellFormed: string -> bool)

  /**
   * The DEFAULT_JMX_NAME and DEFAULT_JMX_NAME_PREFIX constants of the wrapper MBean interfaces,
   * and the name of the wrapper manager agent.
   */
  datatype WrapperNames = WrapperNames(
    statistics: string, mule: string, configuration: string,
    modelPrefix: string, servicePrefix: string, connectorPrefix: string,
    wrapperAgent: string)

  /** What the catalog tells about the objects registered at event time. */
  datatype Model = Model(name: string, modelType: string)
  datatype Receiver = Receiver(name: string, componentName: string)
  datatype Connector = Connector(name: string, isAbstractConnector: bool, receivers: seq<Receiver>)

  /** The domain part of a canonical name: everything before the first ':'. */
  function DomainOf(name: string): Option<string>
    decreases |name|
  {
    if name == [] then None
    else if name[0] == ':' then Some([])
    else match DomainOf(name[1..])
      case None => None
      case Some(d) => Some([name[0]] + d)
  }

  /** A name has a domain exactly when it holds a ':'; the domain is the colon-free text before the first one. */
  lemma {:induction false} DomainOfSpec(name: string)
    ensures DomainOf(name).None? <==> ':' !in name
    ensures DomainOf(name).Some? ==> ':' !in DomainOf(name).value && DomainOf(name).value + ":" <= name
    decreases |name|
  {
    if name != [] && name[0] != ':' {
      DomainOfSpec(name[1..]);
      assert name == [name[0]] + name[1..];
    }
  }

  /** Every qualified name lies in its domain, so the domain-wide query matches it. */
  lemma {:induction false} DomainOfQualified(domain: string, keys: string)
    requires ':' !in domain
    ensures DomainOf(domain + ":" + keys) == Some(domain)
    decreases |domain|
  {
    var name := domain + ":" + keys;
    if domain != [] {
      assert name[0] == domain[0];
      assert name[1..] == domain[1..] + ":" + keys;
      DomainOfQualified(domain[1..], keys);
      assert [domain[0]] + domain[1..] == domain;
    }
  }

  /** `"%s:%s"`: a key list qualified by the domain. */
  function QualifiedName(support: JmxSupport, keys: string): string {
    support.domain + ":" + keys
  }

  /** The domain-wide query pattern `<domain>:*`. */
  function QueryPattern(support: JmxSupport): string {
    QualifiedName(support, "*")
  }

  /** `"%s:%s%s"`: a category prefix followed by an escaped raw name. */
  function PrefixedName(support: JmxSupport, prefix: string, raw: string): string {
    QualifiedName(support, prefix + support.escape(raw))
  }

  function ModelName(support: JmxSupport, names: WrapperNames, m: Model): string {
    PrefixedName(support, names.modelPrefix, m.name + "(" + m.modelType + ")")
  }

  function ServiceName(support: JmxSupport, names: WrapperNames, service: string): string {
    PrefixedName(support, names.servicePrefix, service)
  }

  function ConnectorName(support: JmxSupport, names: WrapperNames, c: Connector): string {
    PrefixedName(support, names.connectorPrefix, c.name)
  }

  const EndpointType := "type=org.mule.Endpoint,service="
  const ConnectorKey := ",connector="
  const NameKey := ",name="

  /** `head`, a service, a connector key, a connector, a name key and a name, one after the other. */
  function BuildKeys(head: string, service: string, connectorKey: string, connector: string,
                     nameKey: string, name: string): string
  {
    head + service + connectorKey + connector + nameKey + name
  }

  datatype EndpointParts = EndpointParts(service: string, connector: string, name: string)

  /**
   * Reads a name built by BuildKeys back: the service runs to the first ',' after `head`,
   * the name follows the last ',' (which must begin the name key).
   */
  function ParseKeys(head: string, connectorKey: string, nameKey: string, s: string): Option<EndpointParts> {
    if !(head <= s) then None else ParseService(connectorKey, nameKey, s[|head|..])
  }

  /** The service part runs to the first ','; the connector key follows it. */
  function ParseService(connectorKey: string, nameKey: string, rest: string): Option<EndpointParts> {
    match SplitAtFirst(rest, ',')
    case None => None
    case Some((service, after)) =>
      if !(connectorKey <= after) then None
      else ParseConnector(service, nameKey, after[|connectorKey|..])
  }

  /** The connector part runs to the last ','; the name key and the receiver name follow it. */
  function ParseConnector(service: string, nameKey: string, tail: string): Option<EndpointParts> {
    match SplitAtLast(tail, ',')
    case None => None
    case Some((connector, last)) =>
      if !(nameKey <= last) then None
      else Some(EndpointParts(service, connector, last[|nameKey|..]))
  }

  /** Keys that begin with ',' and hold no other ',' separate the parts unambiguously. */
  predicate SeparatorKey(key: string) {
    |key| > 0 && key[0] == ',' && ',' !in key[1..]
  }

  lemma ParseConnectorOf(service: string, connector: string, nameKey: string, name: string)
    requires SeparatorKey(nameKey) && ',' !in name
    ensures ParseConnector(service, nameKey, connector + (nameKey + name))
         == Some(EndpointParts(service, connector, name))
  {
    assert ',' !in nameKey[1..] + name;
    assert connector + (nameKey + name) == connector + [','] + (nameKey[1..] + name);
    SplitAtLastOf(connector, ',', nameKey[1..] + name);
    assert [','] + (nameKey[1..] + name) == nameKey + name;
    assert (nameKey + name)[|nameKey|..] == name;
  }

  lemma ParseServiceOf(service: string, connectorKey: string, nameKey: string, tail: string)
    requires SeparatorKey(connectorKey) && ',' !in service
    ensures ParseService(connectorKey, nameKey, service + (connectorKey + tail))
         == ParseConnector(service, nameKey, tail)
  {
    assert service + (connectorKey + tail) == service + [','] + (connectorKey[1..] + tail);
    SplitAtFirstOf(service, ',', connectorKey[1..] + tail);
    assert [','] + (connectorKey[1..] + tail) == connectorKey + tail;
    assert (connectorKey + tail)[|connectorKey|..] == tail;
  }

  lemma BuildKeysShape(head: string, service: string, connectorKey: string, connector: string,
                       nameKey: string, name: string)
    ensures BuildKeys(head, service, connectorKey, connector, nameKey, name)
         == head + (service + (connectorKey + (connector + (nameKey + name))))
  {
  }

  lemma ParseKeysRoundTrip(head: string, service: string, connectorKey: string, connector: string,
                           nameKey: string, name: string)
    requires SeparatorKey(connectorKey) && SeparatorKey(nameKey)
    requires ',' !in service && ',' !in name
    ensures ParseKeys(head, connectorKey, nameKey, BuildKeys(head, service, connectorKey, connector, nameKey, name))
         == Some(EndpointParts(service, connector, name))
  {
    var tail := connector + (nameKey + name);
    var rest := service + (connectorKey + tail);
    BuildKeysShape(head, service, connectorKey, connector, nameKey, name);
    assert (head + rest)[|head|..] == rest;
    ParseServiceOf(service, connectorKey, nameKey, tail);
    ParseConnectorOf(service, connector, nameKey, name);
  }

  lemma ParseConnectorSound(service: string, nameKey: string, tail: string)
    requires SeparatorKey(nameKey)
    requires ParseConnector(service, nameKey, tail).Some?
    ensures var p := ParseConnector(service, nameKey, tail).value;
      && p.service == service && ',' !in p.name && tail == p.connector + (nameKey + p.name)
  {
    SplitAtLastSound(tail, ',');
    var (connector, last) := SplitAtLast(tail, ',').value;
    var name := last[|nameKey|..];
    assert last == nameKey + name;
    assert name == last[1..][|nameKey| - 1..];
  }

  lemma ParseServiceSound(connectorKey: string, nameKey: string, rest: string)
    requires SeparatorKey(nameKey)
    requires ParseService(connectorKey, nameKey, rest).Some?
    ensures var p := ParseService(connectorKey, nameKey, rest).value;
      && ',' !in p.service && ',' !in p.name
      && rest == p.service + (connectorKey + (p.connector + (nameKey + p.name)))
  {
    SplitAtFirstSound(rest, ',');
    var (service, after) := SplitAtFirst(rest, ',').value;
    var tail := after[|connectorKey|..];
    ParseConnectorSound(service, nameKey, tail);
    assert after == connectorKey + tail;
  }

  lemma ParseKeysSound(head: string, connectorKey: string, nameKey: string, s: string)
    requires SeparatorKey(nameKey)
    requires ParseKeys(head, connectorKey, nameKey, s).Some?
    ensures var p := ParseKeys(head, connectorKey, nameKey, s).value;
      && ',' !in p.service && ',' !in p.name
      && s == BuildKeys(head, p.service, connectorKey, p.connector, nameKey, p.name)
  {
    var rest := s[|head|..];
    ParseServiceSound(connectorKey, nameKey, rest);
    var p := ParseKeys(head, connectorKey, nameKey, s).value;
    BuildKeysShape(head, p.service, connectorKey, p.connector, nameKey, p.name);
    assert s == head + rest;
  }

  /** The endpoint key list over already escaped service and receiver names. */
  function EndpointKey(domain: string, service: string, connector: string, name: string): string {
    BuildKeys(domain + ":" + EndpointType, service, ConnectorKey, connector, NameKey, name)
  }

  /** buildFullyQualifiedEndpointName: the service and receiver names are escaped, the connector name is not. */
  function EndpointName(support: JmxSupport, r: Receiver, c: Connector): string {
    EndpointKey(support.domain, support.escape(r.componentName), c.name, support.escape(r.name))
  }

  /** Reads an endpoint name back into its escaped service, connector and escaped receiver name. */
  function ParseEndpointName(domain: string, s: string): Option<EndpointParts> {
    ParseKeys(domain + ":" + EndpointType, ConnectorKey, NameKey, s)
  }

  /** Parsing inverts building whenever the escaped service and receiver names hold no ','. */
  lemma EndpointKeyRoundTrip(domain: string, service: string, connector: string, name: string)
    requires ',' !in service && ',' !in name
    ensures ParseEndpointName(domain, EndpointKey(domain, service, connector, name))
         == Some(EndpointParts(service, connector, name))
  {
    assert SeparatorKey(ConnectorKey) && SeparatorKey(NameKey);
    ParseKeysRoundTrip(domain + ":" + EndpointType, service, ConnectorKey, connector, NameKey, name);
  }

  /** Everything the parser accepts is an endpoint name with comma-free service and receiver parts. */
  lemma ParseEndpointNameSound(domain: string, s: string)
    requires ParseEndpointName(domain, s).Some?
    ensures var p := ParseEndpointName(domain, s).value;
      && ',' !in p.service && ',' !in p.name
      && s == EndpointKey(domain, p.service, p.connector, p.name)
  {
    assert SeparatorKey(NameKey);
    ParseKeysSound(domain + ":" + EndpointType, ConnectorKey, NameKey, s);
  }

  /**
   * Two receivers get the same endpoint name only when their escaped names, escaped services
   * and connector names agree, provided escaping never yields a ','.
   */
  lemma EndpointNameDistinguishes(support: JmxSupport, r1: Receiver, c1: Connector, r2: Receiver, c2: Connector)
    requires forall raw :: ',' !in support.escape(raw)
    requires EndpointName(support, r1, c1) == EndpointName(support, r2, c2)
    ensures support.escape(r1.componentName) == support.escape(r2.componentName)
    ensures c1.name == c2.name
    ensures support.escape(r1.name) == support.escape(r2.name)
  {
    var d := support.domain;
    EndpointKeyRoundTrip(d, support.escape(r1.componentName), c1.name, support.escape(r1.name));
    EndpointKeyRoundTrip(d, support.escape(r2.componentName), c2.name, support.escape(r2.name));
  }

  /** A name that begins with "<domain>:" lies in that domain. */
  lemma DomainOfPrefixed(domain: string, name: string)
    requires ':' !in domain && domain + ":" <= name
    ensures DomainOf(name) == Some(domain)
  {
    DomainOfQualified(domain, name[|domain| + 1..]);
    assert name == domain + ":" + name[|domain| + 1..];
  }

  /** Names built with the same category prefix coincide only when the escaped raw names do. */
  lemma PrefixedNameInjective(support: JmxSupport, prefix: string, a: string, b: string)
    requires PrefixedName(support, prefix, a) == PrefixedName(support, prefix, b)
    ensures support.escape(a) == support.escape(b)
  {
    var n := |support.domain + ":" + prefix|;
    assert PrefixedName(support, prefix, a)[n..] == support.escape(a);
    assert PrefixedName(support, prefix, b)[n..] == support.escape(b);
  }

  function ModelNames(support: JmxSupport, names: WrapperNames, models: seq<Model>): seq<string> {
    seq(|models|, i requires 0 <= i < |models| => ModelName(support, names, models[i]))
  }

  function ServiceNames(support: JmxSupport, names: WrapperNames, services: seq<string>): seq<string> {
    seq(|services|, i requires 0 <= i < |services| => ServiceName(support, names, services[i]))
  }

  function ConnectorNames(support: JmxSupport, names: WrapperNames, connectors: seq<Connector>): seq<string> {
    seq(|connectors|, i requires 0 <= i < |connectors| => ConnectorName(support, names, connectors[i]))
  }

  function ReceiverNames(support: JmxSupport, c: Connector): seq<string> {
    seq(|c.receivers|, i requires 0 <= i < |c.receivers| => EndpointName(support, c.receivers[i], c))
  }

  /** One endpoint name per receiver of every AbstractConnector; other connectors only log a warning. */
  function EndpointNames(support: JmxSupport, connectors: seq<Connector>): seq<string>
    decreases |connectors|
  {
    if connectors == [] then []
    else
      (if connectors[0].isAbstractConnector then ReceiverNames(support, connectors[0]) else [])
      + EndpointNames(support, connectors[1..])
  }

  /**
   * The names the started listener registers, in order: statistics, mule, configuration,
   * models, services, endpoints, connectors.
   */
  function PhaseNames(support: JmxSupport, names: WrapperNames, models: seq<Model>,
                      services: seq<string>, connectors: seq<Connector>): seq<string>
  {
    [QualifiedName(support, names.statistics)]
    + [QualifiedName(support, names.mule)]
    + [QualifiedName(support, names.configuration)]
    + ModelNames(support, names, models)
    + ServiceNames(support, names, services)
    + EndpointNames(support, connectors)
    + ConnectorNames(support, names, connectors)
  }

  predicate AllInDomain(s: seq<string>, domain: string) {
    forall i :: 0 <= i < |s| ==> DomainOf(s[i]) == Some(domain)
  }

  lemma {:induction false} EndpointNamesInDomain(support: JmxSupport, connectors: seq<Connector>)
    requires ':' !in support.domain
    ensures AllInDomain(EndpointNames(support, connectors), support.domain)
    decreases |connectors|
  {
    if connectors != [] {
      var c := connectors[0];
      forall i | 0 <= i < |c.receivers|
        ensures DomainOf(ReceiverNames(support, c)[i]) == Some(support.domain)
      {
        var r := c.receivers[i];
        DomainOfPrefixed(support.domain, ReceiverNames(support, c)[i]);
      }
      EndpointNamesInDomain(support, connectors[1..]);
    }
  }

  lemma AllInDomainConcat(a: seq<string>, b: seq<string>, domain: string)
    requires AllInDomain(a, domain) && AllInDomain(b, domain)
    ensures AllInDomain(a + b, domain)
  {
    forall i | 0 <= i < |a + b| ensures DomainOf((a + b)[i]) == Some(domain) {
      if i >= |a| {
        assert (a + b)[i] == b[i - |a|];
      }
    }
  }

  lemma ModelNamesInDomain(support: JmxSupport, names: WrapperNames, models: seq<Model>)
    requires ':' !in support.domain
    ensures AllInDomain(ModelNames(support, names, models), support.domain)
  {
    forall i | 0 <= i < |models|
      ensures DomainOf(ModelNames(support, names, models)[i]) == Some(support.domain)
    {
      DomainOfQualified(support.domain,
        names.modelPrefix + support.escape(models[i].name + "(" + models[i].modelType + ")"));
    }
  }

  lemma ServiceNamesInDomain(support: JmxSupport, names: WrapperNames, services: seq<string>)
    requires ':' !in support.domain
    ensures AllInDomain(ServiceNames(support, names, services), support.domain)
  {
    forall i | 0 <= i < |services|
      ensures DomainOf(ServiceNames(support, names, services)[i]) == Some(support.domain)
    {
      DomainOfQualified(support.domain, names.servicePrefix + support.escape(services[i]));
    }
  }

  lemma ConnectorNamesInDomain(support: JmxSupport, names: WrapperNames, connectors: seq<Connector>)
    requires ':' !in support.domain
    ensures AllInDomain(ConnectorNames(support, names, connectors), support.domain)
  {
    forall i | 0 <= i < |connectors|
      ensures DomainOf(ConnectorNames(support, names, connectors)[i]) == Some(support.domain)
    {
      DomainOfQualified(support.domain, names.connectorPrefix + support.escape(connectors[i].name));
    }
  }

  /** Every name of the registration phase is matched by the domain-wide query. */
  lemma PhaseNamesInDomain(support: JmxSupport, names: WrapperNames, models: seq<Model>,
                           services: seq<string>, connectors: seq<Connector>)
    requires ':' !in support.domain
    ensures AllInDomain(PhaseNames(support, names, models, services, connectors), support.domain)
  {
    var d := support.domain;
    DomainOfQualified(d, names.statistics);
    DomainOfQualified(d, names.mule);
    DomainOfQualified(d, names.configuration);
    var fixed := [QualifiedName(support, names.statistics)]
      + [QualifiedName(support, names.mule)]
      + [QualifiedName(support, names.configuration)];
    AllInDomainConcat([QualifiedName(support, names.statistics)], [QualifiedName(support, names.mule)], d);
    AllInDomainConcat([QualifiedName(support, names.statistics)] + [QualifiedName(support, names.mule)],
      [QualifiedName(support, names.configuration)], d);
    ModelNamesInDomain(support, names, models);
    ServiceNamesInDomain(support, names, services);
    EndpointNamesInDomain(support, connectors);
    ConnectorNamesInDomain(support, names, connectors);
    var s1 := fixed + ModelNames(support, names, models);
    AllInDomainConcat(fixed, ModelNames(support, names, models), d);
    var s2 := s1 + ServiceNames(support, names, services);
    AllInDomainConcat(s1, ServiceNames(support, names, services), d);
    var s3 := s2 + EndpointNames(support, connectors);
    AllInDomainConcat(s2, EndpointNames(support, connectors), d);
    AllInDomainConcat(s3, ConnectorNames(support, names, connectors), d);
  }

  /** getDescription: the agent name and the connector URL when one is configured. */
  function Description(agentName: string, url: Option<string>): string {
    if url.Some? then agentName + ": " + url.value else "JMX Agent"
  }

  /** The description tells configured URLs apart. */
  lemma DescriptionIdentifiesUrl(agentName: string, u1: string, u2: string)
    requires Description(agentName, Some(u1)) == Description(agentName, Some(u2))
    ensures u1 == u2
  {
    var n := |agentName + ": "|;
    assert Description(agentName, Some(u1))[n..] == u1;
    assert Description(agentName, Some(u2))[n..] == u2;
  }
}
