/** From the catalog's bytes to a method's place in the dispatch table, as the command line tool gets there. */
module ToolCalls {
  import opened Wire
  import opened Schemas
  import opened Items
  import opened Encoder
  import opened Decoder
  import opened Endpoints
  import opened CatalogReading
  import C = Catalog

  // ---- what the tool uses of the catalog ----

  function Methods(ms: seq<C.Method>): (r: seq<Method>)
    ensures |r| == |ms| && forall k :: 0 <= k < |ms| ==> r[k] == Method(ms[k].name, ms[k].id)
  {
    seq(|ms|, k requires 0 <= k < |ms| => Method(ms[k].name, ms[k].id))
  }

  /** The tool knows nothing of the generator's sorted list. */
  function Listing(c: C.Service): Service {
    Service(c.name, c.uuid, c.major, c.minor, Methods(c.methods), [])
  }

  function Listings(catalog: seq<C.Service>): (r: seq<Service>)
    ensures |r| == |catalog| && forall i :: 0 <= i < |r| ==> r[i] == Listing(catalog[i])
  {
    seq(|catalog|, i requires 0 <= i < |catalog| => Listing(catalog[i]))
  }

  /** The catalog entry lists the service's name and its methods as declared. */
  predicate Describes(c: C.Service, s: Service) {
    && c.name == s.name && |c.methods| == |s.methods|
    && forall k :: 0 <= k < |c.methods| ==> c.methods[k].name == s.methods[k].name && c.methods[k].id == s.methods[k].id
  }

  predicate DistinctNames(ms: seq<Method>) {
    forall i, j :: 0 <= i < j < |ms| ==> ms[i].name != ms[j].name
  }

  lemma {:induction false} FindNamed(ms: seq<Method>, m: Method)
    requires DistinctNames(ms) && m in ms
    ensures FindMethod(ms, m.name) == Some(m)
  {
    if ms[0] != m {
      var j :| 0 < j < |ms| && ms[j] == m;
      assert ms[1..][j - 1] == m;
      FindNamed(ms[1..], m);
    }
  }

  lemma CatalogListed(catalog: seq<C.Service>, services: seq<Service>)
    requires |catalog| == |services| && forall j :: 0 <= j < |services| ==> Describes(catalog[j], services[j])
    ensures SameListing(Listings(catalog), services)
  {
  }

  predicate SameListing(a: seq<Service>, b: seq<Service>) {
    |a| == |b| && forall j :: 0 <= j < |a| ==> a[j].name == b[j].name && a[j].methods == b[j].methods
  }

  /** Endpoint id `id` is that of method `m` of service `i`. */
  predicate IsEndpointOf(services: seq<Service>, i: nat, m: Method, id: Option<nat>) {
    id.Some? && 1 <= id.value <= |Table(services, 0)| && Table(services, 0)[id.value - 1] == Slot(i, m)
  }

  lemma ToolFinds(read: seq<Service>, services: seq<Service>, i: nat, k: nat)
    requires ServicesOk(services) && i < |services| && k < |services[i].sorted| && SameListing(read, services)
    requires forall j :: 0 <= j < i ==> services[j].name != services[i].name
    requires DistinctNames(services[i].methods)
    ensures var m := services[i].sorted[k];
      IsEndpointOf(services, i, m, CliEndpoint(read, services[i].name, m.name, 0))
  {
    hide Table, MethodsOk, CliEndpoint, FindMethod, DistinctNames, EndpointsBefore;
    SortedListed(services[i], k);
    FindNamed(services[i].methods, services[i].sorted[k]);
    CliSame(read, services, services[i].name, services[i].sorted[k].name, 0);
    SameLength(services[i]);
    ThreeWayAgreement(services, i, k);
  }

  lemma SortedListed(s: Service, k: nat)
    requires MethodsOk(s) && k < |s.sorted|
    ensures s.sorted[k] in s.methods
  {
    assert s.sorted[k] in multiset(s.sorted);
  }

  /** The tool's counterpart of a stub reaching its methods: asked for a method by name, the tool goes through the
      catalog it read from the server's bytes and comes to the endpoint id at which the dispatch table has that method.
      */
  lemma ToolReachesMethods(catalog: seq<C.Service>, services: seq<Service>, i: nat, k: nat, rest: seq<Byte>)
    requires ServicesOk(services) && i < |services| && k < |services[i].sorted|
    requires |catalog| == |services| && forall j :: 0 <= j < |services| ==> Describes(catalog[j], services[j])
    requires forall c <- catalog :: C.ServiceFits(c) && C.NamesFit(c)
    requires forall j :: 0 <= j < i ==> services[j].name != services[i].name
    requires DistinctNames(services[i].methods)
    ensures Typed(C.ServerSchema(), Message(C.RESPONSE), C.ResponseValue(catalog))
    ensures var sent := Encode(C.ServerSchema(), C.RESPONSE, C.ResponseValue(catalog));
      var (p, m) := (Decode(C.ToolSchema(), C.RESPONSE, sent + rest), services[i].sorted[k]);
      p.Done? && IsEndpointOf(services, i, m, CliEndpoint(Listings(ReadCatalog(p.value)), services[i].name, m.name, 0))
  {
    hide C.ServerSchema, C.ToolSchema, Decode, Encode, Typed, C.ServiceFits, C.NamesFit, MethodsOk, CliEndpoint,
         IsEndpointOf, Describes, ReadCatalog, SameListing, DistinctNames, C.ResponseValue;
    CatalogReadBack(catalog, rest);
    CatalogListed(catalog, services);
    ToolFinds(Listings(catalog), services, i, k);
  }
}
