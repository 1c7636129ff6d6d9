/** File transfer capabilities: from what local clients can handle to the namespaces we advertise, and from a contact's
    namespaces to the channel classes it can be offered. */
module FtCapabilities {
  import opened Capabilities
  import opened Collections

  const CHANNEL_TYPE_FILE_TRANSFER := "org.freedesktop.Telepathy.Channel.Type.FileTransfer"
  const CHANNEL_TYPE_STREAM_TUBE := "org.freedesktop.Telepathy.Channel.Type.StreamTube"
  const CHANNEL_TYPE_DBUS_TUBE := "org.freedesktop.Telepathy.Channel.Type.DBusTube"
  const HANDLE_TYPE_CONTACT: nat := 1

  const NS_IQ_OOB := "jabber:iq:oob"
  const NS_X_OOB := "jabber:x:oob"
  const SCHEME := "http:"
  const TELEPATHY := SCHEME + "//telepathy.freedesktop.org/xmpp/"
  const NS_FT_METADATA := TELEPATHY + "file-transfer-metadata"
  const FT_SERVICE_PREFIX := NS_FT_METADATA + "#"
  const NS_SI := SCHEME + "//jabber.org/protocol/si"
  const NS_TUBES := TELEPATHY + "tubes"
  const STREAM_CAP_PREFIX := NS_TUBES + "/stream#"
  const DBUS_CAP_PREFIX := NS_TUBES + "/dbus#"
  const QUIRK_NOT_XEP_CAPABILITIES: string := [QUIRK_PREFIX_CHAR] + "not-xep-capabilities"

  /** What is advertised whatever clients there are. */
  const SELF_ADVERTISED: seq<string> := [NS_SI, NS_TUBES, NS_IQ_OOB, NS_X_OOB, NS_FT_METADATA]

  /** A channel class a client handles, as far as it is looked at; a property of the wrong type counts as absent.
      `serviceName` is that of file transfers, `tubeService` that of the tubes of the channel type given. */
  datatype Filter = Filter(channelType: Option<string>, targetHandleType: Option<nat>, requested: Option<bool>,
                           serviceName: Option<string>, tubeService: Option<string>)

  /** A client is what it handles. */
  type Client = seq<Filter>

  datatype Allowed = Standard | WithMetadata | WithServiceNameAndMetadata

  /** A requestable channel class: fixed service name, if any, and properties allowed besides. */
  datatype ChannelClass = ChannelClass(service: Option<string>, allowed: Allowed)

  predicate IsFt(f: Filter) {
    f.channelType == Some(CHANNEL_TYPE_FILE_TRANSFER) && f.targetHandleType == Some(HANDLE_TYPE_CONTACT)
  }

  predicate IsRequested(f: Filter) { f.requested == Some(true) }

  function ServiceNs(name: string): string { FT_SERVICE_PREFIX + name }

  /** What one filter adds. */
  function Namespaces(f: Filter): set<string> {
    if !IsFt(f) then {}
    else {NS_IQ_OOB, NS_X_OOB, NS_FT_METADATA} + if IsRequested(f) || f.serviceName.None? then {} else {ServiceNs(f.serviceName.value)}
  }

  /** `salut_ft_manager_represent_client`. */
  function Represent(caps: set<string>, filters: seq<Filter>): set<string> {
    if filters == [] then caps else Represent(caps, filters[..|filters| - 1]) + Namespaces(filters[|filters| - 1])
  }

  /** What the tubes manager adds for one filter. */
  function TubeNamespaces(f: Filter): set<string> {
    if f.targetHandleType != Some(HANDLE_TYPE_CONTACT) || f.tubeService.None? then {}
    else if f.channelType == Some(CHANNEL_TYPE_STREAM_TUBE) then {STREAM_CAP_PREFIX + f.tubeService.value}
    else if f.channelType == Some(CHANNEL_TYPE_DBUS_TUBE) then {DBUS_CAP_PREFIX + f.tubeService.value}
    else {}
  }

  /** `salut_tubes_manager_represent_client`. */
  function RepresentTubes(caps: set<string>, filters: seq<Filter>): set<string> {
    if filters == [] then caps
    else RepresentTubes(caps, filters[..|filters| - 1]) + TubeNamespaces(filters[|filters| - 1])
  }

  /** What `salut_connection_update_capabilities` advertises for a list of clients. */
  function Advertised(clients: seq<Client>): set<string> {
    if clients == [] then Elems(SELF_ADVERTISED)
    else
      var n := |clients| - 1;
      Represent(RepresentTubes(Advertised(clients[..n]), clients[n]), clients[n])
  }

  predicate OffersFt(caps: set<string>) {
    NS_IQ_OOB in caps || NS_X_OOB in caps || QUIRK_NOT_XEP_CAPABILITIES in caps
  }

  function BaseClass(caps: set<string>): ChannelClass {
    ChannelClass(None, if NS_FT_METADATA in caps then WithServiceNameAndMetadata else Standard)
  }

  function ServiceClass(name: string): ChannelClass { ChannelClass(Some(name), WithMetadata) }

  predicate IsService(ns: string) { FT_SERVICE_PREFIX <= ns }

  function NameIn(ns: string): string
    requires IsService(ns)
  {
    ns[|FT_SERVICE_PREFIX|..]
  }

  /** The classes of namespaces handed out in some order. */
  function ServiceClasses(order: seq<string>): seq<ChannelClass> {
    if order == [] then []
    else
      var ns := order[|order| - 1];
      ServiceClasses(order[..|order| - 1]) + if IsService(ns) then [ServiceClass(NameIn(ns))] else []
  }

  /** `salut_ft_manager_get_contact_caps_from_set`, the set handing out its features in `order`. */
  function ContactClasses(caps: set<string>, order: seq<string>): seq<ChannelClass> {
    (if OffersFt(caps) then [BaseClass(caps)] else []) + ServiceClasses(order)
  }

  /** The features of a set, each once, quirks left out. */
  ghost predicate Enumerates(order: seq<string>, caps: set<string>) {
    && (forall s :: s in order <==> s in caps && !IsQuirk(s))
    && forall i, j :: 0 <= i < j < |order| ==> order[i] != order[j]
  }

  // ----- lemmas -----

  lemma FirstChars()
    ensures NS_IQ_OOB[0] == 'j' && NS_X_OOB[0] == 'j' && NS_FT_METADATA[0] == 'h'
    ensures FT_SERVICE_PREFIX[0] == 'h' && QUIRK_PREFIX_CHAR < 'h'
    ensures |NS_FT_METADATA| < |FT_SERVICE_PREFIX|
    ensures !IsQuirk(NS_IQ_OOB) && !IsQuirk(NS_X_OOB) && !IsQuirk(NS_FT_METADATA) && IsQuirk(QUIRK_NOT_XEP_CAPABILITIES)
  {
    assert NS_IQ_OOB == "jabber:iq:oob" && NS_X_OOB == "jabber:x:oob";
    assert NS_FT_METADATA[0] == SCHEME[0] == 'h';
    assert FT_SERVICE_PREFIX[0] == NS_FT_METADATA[0];
  }

  lemma ServiceNamespace(name: string)
    ensures IsService(ServiceNs(name)) && NameIn(ServiceNs(name)) == name && !IsQuirk(ServiceNs(name))
    ensures ServiceNs(name) !in {NS_IQ_OOB, NS_X_OOB, NS_FT_METADATA}
  {
    FirstChars();
    assert ServiceNs(name)[0] == FT_SERVICE_PREFIX[0];
  }

  lemma ServiceNsOf(ns: string)
    requires IsService(ns)
    ensures ns == ServiceNs(NameIn(ns)) && !IsQuirk(ns)
  {
    FirstChars();
    assert ns[0] == FT_SERVICE_PREFIX[0];
  }

  /** How often a service's class comes out of an enumeration without repetitions. */
  lemma {:induction false} ServiceClassTimes(order: seq<string>, c: ChannelClass)
    requires forall i, j :: 0 <= i < j < |order| ==> order[i] != order[j]
    ensures Times(ServiceClasses(order), c) ==
      if c.service.Some? && c.allowed.WithMetadata? && ServiceNs(c.service.value) in order then 1 else 0
  {
    if order != [] {
      var before, ns := order[..|order| - 1], order[|order| - 1];
      ServiceClassTimes(before, c);
      assert order == before + [ns];
      ClassOf(ns, c);
      assert ns !in before by { assert forall i :: 0 <= i < |before| ==> before[i] == order[i]; }
      hide ServiceNs, IsService, NameIn;
      if IsService(ns) {
        TimesAppend(ServiceClasses(before), ServiceClass(NameIn(ns)), c);
      } else {
        assert ServiceClasses(before) + [] == ServiceClasses(before);
      }
    }
  }

  lemma ClassOf(ns: string, c: ChannelClass)
    ensures IsService(ns) && c == ServiceClass(NameIn(ns)) <==>
      c.service.Some? && c.allowed.WithMetadata? && ServiceNs(c.service.value) == ns
  {
    if c.service.Some? {
      ServiceNamespace(c.service.value);
    }
    if IsService(ns) {
      ServiceNsOf(ns);
    }
  }

  /** The classes of a contact. */
  predicate Offered(caps: set<string>, c: ChannelClass) {
    if c.service.None? then
      && (NS_IQ_OOB in caps || NS_X_OOB in caps || QUIRK_NOT_XEP_CAPABILITIES in caps)
      && c.allowed == (if NS_FT_METADATA in caps then WithServiceNameAndMetadata else Standard)
    else c.allowed.WithMetadata? && ServiceNs(c.service.value) in caps
  }

  /** A contact's classes: each at most once; the base class if and only if it offers file transfer or knows no
      capabilities; a service's class if and only if its namespace is there. */
  lemma ContactClassTimes(caps: set<string>, order: seq<string>, c: ChannelClass)
    requires Enumerates(order, caps)
    ensures Times(ContactClasses(caps, order), c) == if Offered(caps, c) then 1 else 0
  {
    var base := if OffersFt(caps) then [BaseClass(caps)] else [];
    ServiceClassTimes(order, c);
    TimesConcat(base, ServiceClasses(order), c);
    TimesAppend([], BaseClass(caps), c);
    assert [] + [BaseClass(caps)] == [BaseClass(caps)];
    if c.service.Some? {
      ServiceNamespace(c.service.value);
    }
  }

  /** Which namespaces a list of filters adds. */
  lemma {:induction false} RepresentHas(caps: set<string>, filters: seq<Filter>, ns: string)
    ensures ns in Represent(caps, filters) <==> ns in caps || exists f :: f in filters && ns in Namespaces(f)
  {
    if filters != [] {
      var f := filters[|filters| - 1];
      RepresentHas(caps, filters[..|filters| - 1], ns);
      assert filters == filters[..|filters| - 1] + [f];
    }
  }

  /** The services whose files some client receives. */
  ghost predicate Receives(filters: seq<Filter>, name: string) {
    exists f :: f in filters && ReceivesService(f, name)
  }

  /** A filter for contact file transfers of a service that others initiate. */
  predicate ReceivesService(f: Filter, name: string) {
    && f.channelType == Some(CHANNEL_TYPE_FILE_TRANSFER) && f.targetHandleType == Some(HANDLE_TYPE_CONTACT)
    && (f.requested.Some? ==> !f.requested.value) && f.serviceName == Some(name)
  }

  /** Some client handles file transfers with contacts. */
  ghost predicate HasFt(filters: seq<Filter>) {
    exists f :: f in filters && f.channelType == Some(CHANNEL_TYPE_FILE_TRANSFER) && f.targetHandleType == Some(HANDLE_TYPE_CONTACT)
  }

  /** A service's namespace is there if it was before or some client receives its files. */
  lemma RepresentsService(caps: set<string>, filters: seq<Filter>, name: string)
    ensures ServiceNs(name) in Represent(caps, filters) <==> ServiceNs(name) in caps || Receives(filters, name)
  {
    RepresentHas(caps, filters, ServiceNs(name));
    hide IsFt, IsService, Namespaces, ServiceNs;
    forall f | f in filters ensures
      ServiceNs(name) in Namespaces(f) <==> ReceivesService(f, name)
    {
      ServiceInNamespaces(f, name);
    }
  }

  lemma ServiceInNamespaces(f: Filter, name: string)
    ensures ServiceNs(name) in Namespaces(f) <==> ReceivesService(f, name)
  {
    ServiceNamespace(name);
    if f.serviceName.Some? {
      ServiceNamespace(f.serviceName.value);
    }
    hide ServiceNs;
  }

  /** The base namespaces are there if they were before or some filter is for contact file transfers. */
  lemma RepresentsFt(caps: set<string>, filters: seq<Filter>)
    ensures var r := Represent(caps, filters);
      && (OffersFt(r) <==> OffersFt(caps) || HasFt(filters))
      && (forall ns :: ns in {NS_IQ_OOB, NS_X_OOB, NS_FT_METADATA} ==> (ns in r <==> ns in caps || HasFt(filters)))
  {
    hide IsService;
    forall ns | ns in {NS_IQ_OOB, NS_X_OOB, NS_FT_METADATA}
      ensures ns in Represent(caps, filters) <==> ns in caps || HasFt(filters)
    {
      RepresentHas(caps, filters, ns);
      BaseNamespaces(filters, ns);
    }
    RepresentHas(caps, filters, QUIRK_NOT_XEP_CAPABILITIES);
    NoQuirk(filters);
  }

  lemma BaseNamespaces(filters: seq<Filter>, ns: string)
    requires ns in {NS_IQ_OOB, NS_X_OOB, NS_FT_METADATA}
    ensures (exists f :: f in filters && ns in Namespaces(f)) <==> HasFt(filters)
  {
    forall f | f in filters ensures ns in Namespaces(f) <==> IsFt(f) {
      if f.serviceName.Some? {
        ServiceNamespace(f.serviceName.value);
      }
    }
  }

  lemma NoQuirk(filters: seq<Filter>)
    ensures forall f :: f in filters ==> QUIRK_NOT_XEP_CAPABILITIES !in Namespaces(f)
  {
    forall f | f in filters ensures QUIRK_NOT_XEP_CAPABILITIES !in Namespaces(f) {
      FirstChars();
      if f.serviceName.Some? {
        ServiceNamespace(f.serviceName.value);
      }
    }
  }

  /** For every set and every list of filters: feeding them in and reading the classes back gives the base class exactly
      once if the set offered file transfer before or some filter is for files from or to contacts, with both properties if
      the metadata namespace is there by then; the class of each service that was there before or that some client
      receives, exactly once; and no others. */
  lemma ServicesCompose(caps: set<string>, filters: seq<Filter>, order: seq<string>, c: ChannelClass)
    requires Enumerates(order, Represent(caps, filters))
    ensures Times(ContactClasses(Represent(caps, filters), order), c) ==
      if c.service.None? then
        if && (NS_IQ_OOB in caps || NS_X_OOB in caps || QUIRK_NOT_XEP_CAPABILITIES in caps || HasFt(filters))
           && c.allowed == (if NS_FT_METADATA in caps || HasFt(filters) then WithServiceNameAndMetadata else Standard)
        then 1 else 0
      else if c.allowed.WithMetadata? && (ServiceNs(c.service.value) in caps || Receives(filters, c.service.value)) then 1 else 0
  {
    ContactClassTimes(Represent(caps, filters), order, c);
    RepresentsFt(caps, filters);
    if c.service.Some? {
      RepresentsService(caps, filters, c.service.value);
    }
    hide Represent, Enumerates, ContactClasses, Times, Receives, HasFt, ServiceNs;
  }

  /** Only which filters there are matters, not their order or repetition. */
  lemma OrderIsIrrelevant(caps: set<string>, fs: seq<Filter>, gs: seq<Filter>)
    requires forall f :: f in fs <==> f in gs
    ensures Represent(caps, fs) == Represent(caps, gs)
  {
    hide Represent, Namespaces;
    forall ns ensures ns in Represent(caps, fs) <==> ns in Represent(caps, gs) {
      RepresentHas(caps, fs, ns);
      RepresentHas(caps, gs, ns);
    }
  }

  // ----- what is advertised for all clients together -----

  ghost predicate SomeReceives(clients: seq<Client>, name: string) { exists k :: k in clients && Receives(k, name) }

  /** What a client adds. */
  ghost predicate Adds(k: Client, ns: string) { exists f :: f in k && ns in Namespaces(f) + TubeNamespaces(f) }

  ghost predicate SomeAdds(clients: seq<Client>, ns: string) { exists k :: k in clients && Adds(k, ns) }

  lemma {:induction false} RepresentTubesHas(caps: set<string>, filters: seq<Filter>, ns: string)
    ensures ns in RepresentTubes(caps, filters) <==> ns in caps || exists f :: f in filters && ns in TubeNamespaces(f)
  {
    if filters != [] {
      var f := filters[|filters| - 1];
      RepresentTubesHas(caps, filters[..|filters| - 1], ns);
      assert filters == filters[..|filters| - 1] + [f];
    }
  }

  /** What is advertised is the union of what is always advertised and what each client adds. */
  lemma {:induction false} AdvertisedIsUnion(clients: seq<Client>, ns: string)
    ensures ns in Advertised(clients) <==> ns in SELF_ADVERTISED || SomeAdds(clients, ns)
  {
    hide Namespaces, TubeNamespaces, Represent, RepresentTubes;
    if clients != [] {
      var n := |clients| - 1;
      var before, k := clients[..n], clients[n];
      AdvertisedIsUnion(before, ns);
      RepresentTubesHas(Advertised(before), k, ns);
      RepresentHas(RepresentTubes(Advertised(before), k), k, ns);
      assert ns in Advertised(clients) <==> ns in Advertised(before) || Adds(k, ns);
      assert clients == before + [k];
      hide Adds;
    }
  }

  /** The namespaces of tubes and of file transfer part here. */
  lemma Forks()
    ensures |TELEPATHY| < |NS_TUBES| && NS_TUBES[|TELEPATHY|] == 't'
    ensures |TELEPATHY| < |FT_SERVICE_PREFIX| && FT_SERVICE_PREFIX[|TELEPATHY|] == 'f'
    ensures NS_SI[0] == 'h' && !IsService(NS_SI)
  {
    assert FT_SERVICE_PREFIX[|TELEPATHY|] == NS_FT_METADATA[|TELEPATHY|];
    assert NS_SI[0] == SCHEME[0];
    assert |NS_SI| < |FT_SERVICE_PREFIX|;
  }

  /** Tubes and what is always advertised say nothing about file transfer services, and have no quirks. */
  lemma TubesApart(f: Filter, ns: string)
    requires ns in TubeNamespaces(f) || ns in SELF_ADVERTISED
    ensures !IsService(ns) && !IsQuirk(ns)
  {
    FirstChars();
    Forks();
    if ns in TubeNamespaces(f) || ns == NS_TUBES {
      assert NS_TUBES <= ns;
      assert ns[|TELEPATHY|] == 't' && ns[0] == NS_TUBES[0] == SCHEME[0] == 'h';
    }
  }

  lemma AdvertisedService(clients: seq<Client>, name: string)
    ensures ServiceNs(name) in Advertised(clients) <==> SomeReceives(clients, name)
  {
    var ns := ServiceNs(name);
    AdvertisedIsUnion(clients, ns);
    ServiceNamespace(name);
    hide Namespaces, TubeNamespaces, ServiceNs, IsService;
    forall f ensures ns in Namespaces(f) + TubeNamespaces(f) <==> ReceivesService(f, name) {
      ServiceInNamespaces(f, name);
      if ns in TubeNamespaces(f) || ns in SELF_ADVERTISED {
        TubesApart(f, ns);
      }
    }
  }

  /** The classes advertised, for any clients: the base class exactly once and with both properties, even if no client
      handles files; the class of each service some client receives, exactly once; and no others. */
  lemma AdvertisedClasses(clients: seq<Client>, order: seq<string>, c: ChannelClass)
    requires Enumerates(order, Advertised(clients))
    ensures Times(ContactClasses(Advertised(clients), order), c) ==
      if c.service.None? then (if c.allowed.WithServiceNameAndMetadata? then 1 else 0)
      else if c.allowed.WithMetadata? && SomeReceives(clients, c.service.value) then 1 else 0
  {
    ContactClassTimes(Advertised(clients), order, c);
    AdvertisedIsUnion(clients, NS_IQ_OOB);
    AdvertisedIsUnion(clients, NS_FT_METADATA);
    if c.service.Some? {
      AdvertisedService(clients, c.service.value);
    }
    hide Advertised, Enumerates, ContactClasses, Times, SomeReceives, SomeAdds, ServiceNs;
  }

  /** A client handles the tubes of a service. */
  predicate HandlesTube(f: Filter, channelType: string, service: string) {
    f.channelType == Some(channelType) && f.targetHandleType == Some(HANDLE_TYPE_CONTACT) && f.tubeService == Some(service)
  }

  lemma TubePrefixes(a: string, b: string)
    ensures STREAM_CAP_PREFIX + a != DBUS_CAP_PREFIX + b
    ensures STREAM_CAP_PREFIX + a == STREAM_CAP_PREFIX + b ==> a == b
    ensures DBUS_CAP_PREFIX + a == DBUS_CAP_PREFIX + b ==> a == b
  {
    var n := |NS_TUBES|;
    assert (STREAM_CAP_PREFIX + a)[n + 1] == STREAM_CAP_PREFIX[n + 1] == "/stream#"[1] == 's';
    assert (DBUS_CAP_PREFIX + b)[n + 1] == DBUS_CAP_PREFIX[n + 1] == "/dbus#"[1] == 'd';
    assert (STREAM_CAP_PREFIX + a)[|STREAM_CAP_PREFIX|..] == a && (STREAM_CAP_PREFIX + b)[|STREAM_CAP_PREFIX|..] == b;
    assert (DBUS_CAP_PREFIX + a)[|DBUS_CAP_PREFIX|..] == a && (DBUS_CAP_PREFIX + b)[|DBUS_CAP_PREFIX|..] == b;
  }

  /** What a namespace of a tube service is not: any other one. */
  lemma TubeNamespaceOf(f: Filter, service: string)
    ensures STREAM_CAP_PREFIX + service in Namespaces(f) + TubeNamespaces(f) <==> HandlesTube(f, CHANNEL_TYPE_STREAM_TUBE, service)
    ensures DBUS_CAP_PREFIX + service in Namespaces(f) + TubeNamespaces(f) <==> HandlesTube(f, CHANNEL_TYPE_DBUS_TUBE, service)
  {
    var s, d := STREAM_CAP_PREFIX + service, DBUS_CAP_PREFIX + service;
    Forks();
    TubeNotFt(f, s);
    TubeNotFt(f, d);
    TubePrefixes(service, service);
    if f.tubeService.Some? {
      TubePrefixes(service, f.tubeService.value);
      TubePrefixes(f.tubeService.value, service);
    }
    assert CHANNEL_TYPE_STREAM_TUBE != CHANNEL_TYPE_DBUS_TUBE by { assert |CHANNEL_TYPE_STREAM_TUBE| != |CHANNEL_TYPE_DBUS_TUBE|; }
    hide Namespaces, STREAM_CAP_PREFIX, DBUS_CAP_PREFIX;
  }

  lemma TubeNotFt(f: Filter, ns: string)
    requires NS_TUBES <= ns && |NS_TUBES| < |ns|
    ensures ns !in Namespaces(f) && ns !in SELF_ADVERTISED
  {
    FirstChars();
    Forks();
    assert ns[|TELEPATHY|] == 't';
    assert NS_FT_METADATA[|TELEPATHY|] == 'f' && ns[0] == NS_TUBES[0] == SCHEME[0];
    if f.serviceName.Some? {
      assert ServiceNs(f.serviceName.value)[|TELEPATHY|] == FT_SERVICE_PREFIX[|TELEPATHY|];
    }
    assert ns[5 + |"//"|] == NS_TUBES[5 + |"//"|];
  }

  ghost predicate SomeHandlesTube(clients: seq<Client>, channelType: string, service: string) {
    exists k :: k in clients && exists f :: f in k && HandlesTube(f, channelType, service)
  }

  /** The namespace of a tube service is advertised if and only if some client handles the tubes of that kind and service with
      contacts. */
  lemma AdvertisedTubes(clients: seq<Client>, service: string)
    ensures STREAM_CAP_PREFIX + service in Advertised(clients) <==> SomeHandlesTube(clients, CHANNEL_TYPE_STREAM_TUBE, service)
    ensures DBUS_CAP_PREFIX + service in Advertised(clients) <==> SomeHandlesTube(clients, CHANNEL_TYPE_DBUS_TUBE, service)
  {
    var s, d := STREAM_CAP_PREFIX + service, DBUS_CAP_PREFIX + service;
    AdvertisedIsUnion(clients, s);
    AdvertisedIsUnion(clients, d);
    TubeNotFt(Filter(None, None, None, None, None), s);
    TubeNotFt(Filter(None, None, None, None, None), d);
    hide Advertised, HandlesTube;
    forall f: Filter
      ensures s in Namespaces(f) + TubeNamespaces(f) <==> HandlesTube(f, CHANNEL_TYPE_STREAM_TUBE, service)
      ensures d in Namespaces(f) + TubeNamespaces(f) <==> HandlesTube(f, CHANNEL_TYPE_DBUS_TUBE, service)
    {
      TubeNamespaceOf(f, service);
    }
    hide Namespaces, TubeNamespaces;
  }

  lemma AdvertisedPlain(clients: seq<Client>, ns: string)
    requires ns in Advertised(clients)
    ensures !IsQuirk(ns)
  {
    AdvertisedIsUnion(clients, ns);
    hide Advertised, Namespaces, TubeNamespaces, IsQuirk;
    var none := Filter(None, None, None, None, None);
    if ns in SELF_ADVERTISED {
      TubesApart(none, ns);
    } else {
      var k :| k in clients && Adds(k, ns);
      var f :| f in k && ns in Namespaces(f) + TubeNamespaces(f);
      if ns in TubeNamespaces(f) {
        TubesApart(f, ns);
      } else {
        NamespacesPlain(k, ns);
      }
    }
  }

  /** A peer that learns our set from our discovery reply has the very set we advertise, both namespaces of out of band
      data in it, and reads the same classes from it. */
  lemma PeerSeesServices(clients: seq<Client>, package: string, features: seq<string>, forms: seq<string>, max: nat,
                         order: seq<string>, c: ChannelClass)
    requires Enumerates(features, Advertised(clients)) && !(GABBLE_PREFIX <= package)
    requires Enumerates(order, Decode(Encode(package, features, forms), max))
    ensures var peer := Decode(Encode(package, features, forms), max);
      && peer == Advertised(clients) && NS_IQ_OOB in features && NS_X_OOB in features
      && Times(ContactClasses(peer, order), c) ==
        if c.service.None? then (if c.allowed.WithServiceNameAndMetadata? then 1 else 0)
        else if c.allowed.WithMetadata? && SomeReceives(clients, c.service.value) then 1 else 0
  {
    var caps := Advertised(clients);
    DecodeEncode(caps, package, features, forms, max);
    AdvertisedIsUnion(clients, NS_IQ_OOB);
    AdvertisedIsUnion(clients, NS_X_OOB);
    forall s | s in caps ensures !IsQuirk(s) {
      AdvertisedPlain(clients, s);
    }
    hide Decode, Encode, Advertised, Times, SomeReceives, SomeAdds, ContactClasses;
    assert Decode(Encode(package, features, forms), max) == caps;
    AdvertisedClasses(clients, order, c);
  }

  lemma NamespacesPlain(filters: seq<Filter>, s: string)
    requires exists f :: f in filters && s in Namespaces(f)
    ensures !IsQuirk(s)
  {
    var f :| f in filters && s in Namespaces(f);
    FirstChars();
    if f.serviceName.Some? {
      ServiceNamespace(f.serviceName.value);
    }
  }

  // ----- as the source runs it -----

  /** `salut_dup_self_advertised_caps`. */
  method DupSelfAdvertisedCaps(pool: StringPool) returns (ret: CapabilitySet)
    requires pool.Valid()
    modifies pool`names
    ensures fresh(ret) && ret.pool == pool && ret.Valid() && ret.Names() == Elems(SELF_ADVERTISED)
  {
    ret := new CapabilitySet(pool);
    for i := 0 to |SELF_ADVERTISED|
      invariant fresh(ret) && ret.pool == pool && ret.Valid() && ret.Names() == Elems(SELF_ADVERTISED[..i])
    {
      assert SELF_ADVERTISED[..i + 1] == SELF_ADVERTISED[..i] + [SELF_ADVERTISED[i]];
      ret.Add(SELF_ADVERTISED[i]);
    }
    assert SELF_ADVERTISED[..|SELF_ADVERTISED|] == SELF_ADVERTISED;
  }

  /** `salut_connection_update_capabilities`: the set advertised from now on. */
  method UpdateCapabilities(clients: seq<Client>, pool: StringPool) returns (after: CapabilitySet)
    requires pool.Valid()
    modifies pool`names
    ensures fresh(after) && after.Valid() && after.Names() == Advertised(clients)
  {
    after := DupSelfAdvertisedCaps(pool);
    for i := 0 to |clients|
      invariant fresh(after) && after.pool == pool && after.Valid() && after.Names() == Advertised(clients[..i])
    {
      assert clients[..i + 1][..i] == clients[..i];
      RepresentTubeClient(clients[i], after);
      RepresentClient(clients[i], after);
    }
    assert clients[..|clients|] == clients;
  }

  method RepresentTubeClient(filters: seq<Filter>, capSet: CapabilitySet)
    requires capSet.Valid()
    modifies capSet`handles, capSet.pool`names
    ensures capSet.Valid() && capSet.Names() == RepresentTubes(old(capSet.Names()), filters)
  {
    for i := 0 to |filters|
      invariant capSet.Valid() && capSet.Names() == RepresentTubes(old(capSet.Names()), filters[..i])
    {
      assert filters[..i + 1][..i] == filters[..i];
      AddTubeFilter(filters[i], capSet);
    }
    assert filters[..|filters|] == filters;
  }

  method AddTubeFilter(f: Filter, capSet: CapabilitySet)
    requires capSet.Valid()
    modifies capSet`handles, capSet.pool`names
    ensures capSet.Valid() && capSet.Names() == old(capSet.Names()) + TubeNamespaces(f)
  {
    hide Distinct, InPool, NamesOf, Lookup, Intern;
    if f.channelType != Some(CHANNEL_TYPE_STREAM_TUBE) && f.channelType != Some(CHANNEL_TYPE_DBUS_TUBE) {
      return;
    }
    if f.targetHandleType != Some(HANDLE_TYPE_CONTACT) || f.tubeService.None? {
      return;
    }
    if f.channelType == Some(CHANNEL_TYPE_STREAM_TUBE) {
      capSet.Add(STREAM_CAP_PREFIX + f.tubeService.value);
    } else {
      capSet.Add(DBUS_CAP_PREFIX + f.tubeService.value);
    }
  }

  method RepresentClient(filters: seq<Filter>, capSet: CapabilitySet)
    requires capSet.Valid()
    modifies capSet`handles, capSet.pool`names
    ensures capSet.Valid() && capSet.Names() == Represent(old(capSet.Names()), filters)
  {
    for i := 0 to |filters|
      invariant capSet.Valid() && capSet.Names() == Represent(old(capSet.Names()), filters[..i])
    {
      assert filters[..i + 1][..i] == filters[..i];
      AddFilter(filters[i], capSet);
    }
    assert filters[..|filters|] == filters;
  }

  method AddFilter(f: Filter, capSet: CapabilitySet)
    requires capSet.Valid()
    modifies capSet`handles, capSet.pool`names
    ensures capSet.Valid() && capSet.Names() == old(capSet.Names()) + Namespaces(f)
  {
    hide Distinct, InPool, NamesOf, Lookup, Intern;
    if f.channelType != Some(CHANNEL_TYPE_FILE_TRANSFER) {
      return;
    }
    if f.targetHandleType != Some(HANDLE_TYPE_CONTACT) {
      return;
    }
    capSet.Add(NS_IQ_OOB);
    capSet.Add(NS_X_OOB);
    capSet.Add(NS_FT_METADATA);
    assert capSet.Names() == old(capSet.Names()) + {NS_IQ_OOB, NS_X_OOB, NS_FT_METADATA};
    if f.requested == Some(true) {
      return;
    }
    if f.serviceName.None? {
      return;
    }
    capSet.Add(ServiceNs(f.serviceName.value));
  }

  /** `get_contact_caps_foreach`, for each feature handed out. */
  method AppendServices(features: seq<string>) returns (arr: seq<ChannelClass>)
    ensures arr == ServiceClasses(features)
  {
    hide IsService, NameIn;
    arr := [];
    for i := 0 to |features|
      invariant arr == ServiceClasses(features[..i])
    {
      assert features[..i + 1][..i] == features[..i];
      if IsService(features[i]) {
        arr := arr + [ServiceClass(NameIn(features[i]))];
      }
    }
    assert features[..|features|] == features;
  }

  /** The classes appended for a contact, and the order in which its set was walked. */
  method GetContactCaps(caps: CapabilitySet) returns (arr: seq<ChannelClass>, ghost order: seq<string>)
    requires caps.Valid()
    ensures Enumerates(order, caps.Names()) && arr == ContactClasses(caps.Names(), order)
    ensures forall c :: Times(arr, c) == if Offered(caps.Names(), c) then 1 else 0
  {
    arr := [];
    var iq := caps.Has(NS_IQ_OOB);
    var x := caps.Has(NS_X_OOB);
    var none := caps.Has(QUIRK_NOT_XEP_CAPABILITIES);
    if iq || x || none {
      var metadata := caps.Has(NS_FT_METADATA);
      arr := arr + [ChannelClass(None, if metadata then WithServiceNameAndMetadata else Standard)];
    }
    var features := caps.Features();
    order := features;
    var services := AppendServices(features);
    arr := arr + services;
    EachClassOnce(caps.Names(), order);
  }

  lemma EachClassOnce(caps: set<string>, order: seq<string>)
    requires Enumerates(order, caps)
    ensures forall c :: Times(ContactClasses(caps, order), c) == if Offered(caps, c) then 1 else 0
  {
    forall c ensures Times(ContactClasses(caps, order), c) == if Offered(caps, c) then 1 else 0 {
      ContactClassTimes(caps, order, c);
    }
  }
}
