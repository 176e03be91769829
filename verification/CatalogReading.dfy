/** What the tool makes of a catalog: the decoded message read field by field, by number, as serialrpc_protocol.proto
    numbers them. */
module CatalogReading {
  import opened Wire
  import opened Schemas
  import opened Items
  import opened Encoder
  import opened Decoder
  import opened Catalog
  import D = Discovery
  import TypeTable

  // ---- one field of a decoded message ----

  function Column(t: nat, v: Value, num: int): seq<Value>
    requires t < 6
  {
    match Find(ToolFields()[t], num)
    case None => []
    case Some(i) => if v.Struct? && i < |v.cols| then v.cols[i] else []
  }

  function BytesOf(t: nat, v: Value, num: int): seq<Byte>
    requires t < 6
  {
    var col := Column(t, v, num);
    if col != [] && col[0].Blob? then col[0].bs else []
  }

  function IntOf(t: nat, v: Value, num: int): int
    requires t < 6
  {
    var col := Column(t, v, num);
    if col != [] && col[0].Num? then col[0].n else 0
  }

  function NatOf(t: nat, v: Value, num: int): nat
    requires t < 6
  {
    if IntOf(t, v, num) > 0 then IntOf(t, v, num) else 0
  }

  // ---- the messages of discovery ----

  function ReadField(v: Value): D.DiscoveredField {
    D.DiscoveredField(BytesOf(FIELD_INFO, v, 1), NatOf(FIELD_INFO, v, 2), NatOf(FIELD_INFO, v, 3),
                      NatOf(FIELD_INFO, v, 4), IntOf(FIELD_INFO, v, 5) != 0)
  }

  function ReadEnumValue(v: Value): (seq<Byte>, int) {
    (BytesOf(ENUM_VALUE_INFO, v, 1), IntOf(ENUM_VALUE_INFO, v, 2))
  }

  function ReadAll<T>(vals: seq<Value>, f: Value -> T): (r: seq<T>)
    ensures |r| == |vals| && forall i :: 0 <= i < |r| ==> r[i] == f(vals[i])
  {
    seq(|vals|, i requires 0 <= i < |vals| => f(vals[i]))
  }

  function ReadType(v: Value): D.DiscoveredType {
    D.DiscoveredType(NatOf(TYPE_INFO, v, 1), NatOf(TYPE_INFO, v, 2), BytesOf(TYPE_INFO, v, 3),
                     ReadAll(Column(TYPE_INFO, v, 4), ReadField), ReadAll(Column(TYPE_INFO, v, 5), ReadEnumValue))
  }

  function ReadMethod(v: Value): Method {
    Method(BytesOf(METHOD_INFO, v, 1), NatOf(METHOD_INFO, v, 2), NatOf(METHOD_INFO, v, 3), NatOf(METHOD_INFO, v, 4),
           IntOf(METHOD_INFO, v, 5) != 0, IntOf(METHOD_INFO, v, 6) != 0)
  }

  function ReadService(v: Value): Service {
    Service(BytesOf(SERVICE_INFO, v, 1), BytesOf(SERVICE_INFO, v, 2), IntOf(SERVICE_INFO, v, 3),
            IntOf(SERVICE_INFO, v, 4), ReadAll(Column(SERVICE_INFO, v, 5), ReadMethod),
            ReadAll(Column(SERVICE_INFO, v, 6), ReadType))
  }

  function ReadCatalog(v: Value): seq<Service> {
    ReadAll(Column(RESPONSE, v, 1), ReadService)
  }

  // ---- nothing is lost or exchanged ----

  lemma ColumnAt(t: nat, v: Value, num: nat)
    requires t < 6 && v.Struct? && |v.cols| == |ToolFields()[t]| && 1 <= num <= |v.cols|
    ensures Column(t, v, num) == v.cols[num - 1]
  {
    assert ToolFields()[t][num - 1].num == num;
    hide CatalogFields;
    FindAt(ToolSchema(), t, num - 1);
  }

  lemma FieldRead(f: D.DiscoveredField)
    ensures ReadField(FieldValue(f)) == f
  {
    hide Column;
    forall num: nat | 1 <= num <= 5 ensures Column(FIELD_INFO, FieldValue(f), num) == FieldValue(f).cols[num - 1] {
      ColumnAt(FIELD_INFO, FieldValue(f), num);
    }
  }

  lemma MethodRead(m: Method)
    ensures ReadMethod(MethodValue(m)) == m
  {
    hide Column;
    forall num: nat | 1 <= num <= 6 ensures Column(METHOD_INFO, MethodValue(m), num) == MethodValue(m).cols[num - 1] {
      ColumnAt(METHOD_INFO, MethodValue(m), num);
    }
  }

  lemma TypeRead(t: D.DiscoveredType)
    ensures ReadType(TypeValue(t)) == t
  {
    hide Column, ReadField, ReadEnumValue;
    var cols := TypeValue(t).cols;
    forall num: nat | 1 <= num <= 5 ensures Column(TYPE_INFO, TypeValue(t), num) == cols[num - 1] {
      ColumnAt(TYPE_INFO, TypeValue(t), num);
    }
    forall i | 0 <= i < |t.fields| ensures ReadField(cols[3][i]) == t.fields[i] {
      FieldRead(t.fields[i]);
    }
    forall i | 0 <= i < |t.values| ensures ReadEnumValue(cols[4][i]) == t.values[i] {
      EnumValueRead(t.values[i]);
    }
    assert ReadAll(cols[3], ReadField) == t.fields && ReadAll(cols[4], ReadEnumValue) == t.values;
  }

  lemma EnumValueRead(v: (seq<Byte>, int))
    ensures ReadEnumValue(EnumValue(v)) == v
  {
    hide Column;
    ColumnAt(ENUM_VALUE_INFO, EnumValue(v), 1);
    ColumnAt(ENUM_VALUE_INFO, EnumValue(v), 2);
  }

  lemma ServiceRead(s: Service)
    ensures ReadService(ServiceValue(s)) == s
  {
    hide Column, ReadMethod, ReadType;
    var cols := ServiceValue(s).cols;
    forall num: nat | 1 <= num <= 6 ensures Column(SERVICE_INFO, ServiceValue(s), num) == cols[num - 1] {
      ColumnAt(SERVICE_INFO, ServiceValue(s), num);
    }
    forall i | 0 <= i < |s.methods| ensures ReadMethod(cols[4][i]) == s.methods[i] {
      MethodRead(s.methods[i]);
    }
    forall i | 0 <= i < |s.types| ensures ReadType(cols[5][i]) == s.types[i] {
      TypeRead(s.types[i]);
    }
    assert ReadAll(cols[4], ReadMethod) == s.methods && ReadAll(cols[5], ReadType) == s.types;
  }

  lemma CatalogRead(services: seq<Service>)
    ensures ReadCatalog(ResponseValue(services)) == services
  {
    hide Column, ReadService;
    var vals := Map(services, ServiceValue);
    ColumnAt(RESPONSE, ResponseValue(services), 1);
    forall i | 0 <= i < |services| ensures ReadService(vals[i]) == services[i] {
      ServiceRead(services[i]);
    }
    assert ReadAll(vals, ReadService) == services;
  }

  /** From the server's metadata to the tool's: every service, method, type, field and enum value arrives, in order and
      with each of its numbers, names and flags in its own place, when the tool has the room for the name of every
      method, type and field; otherwise the tool refuses the whole catalog. */
  lemma CatalogReadBack(services: seq<Service>, rest: seq<Byte>)
    requires forall s <- services :: ServiceFits(s)
    ensures Typed(ServerSchema(), Message(RESPONSE), ResponseValue(services))
    ensures var p := Decode(ToolSchema(), RESPONSE, Encode(ServerSchema(), RESPONSE, ResponseValue(services)) + rest);
      if forall s <- services :: NamesFit(s) then p.Done? && ReadCatalog(p.value) == services && p.rest == rest
      else p == Bad
  {
    hide ServerSchema, ToolSchema, Typed, Encode, Decode, ServiceFits, NamesFit, ReadCatalog;
    CatalogArrives(services, rest);
    CatalogRead(services);
  }

  // ---- from the bytes to the rebuilt schema ----

  /** The server's entry for a service with these methods and this list of types. */
  predicate Describes(c: Service, g: TypeTable.Graph, types: seq<D.TypeRef>, methods: seq<TypeTable.Signature>) {
    && (forall i :: 0 <= i < |types| ==> D.InGraph(g, types[i]))
    && c.types == D.Describe(g, types) && |c.methods| == |methods|
    && forall k :: 0 <= k < |methods| ==>
         && c.methods[k].request == D.IdOf(types, D.Msg(methods[k].request))
         && c.methods[k].response == D.IdOf(types, D.Msg(methods[k].response))
  }

  /** Discovery from end to end: from the bytes the server sends, the tool gets a description it accepts for each of the
      service's methods, in which the method's request and response ids lead to its request and response types and every
      rebuilt entry mirrors the type it stands for. */
  lemma SchemaFromBytes(
      g: TypeTable.Graph, methods: seq<TypeTable.Signature>, messages: seq<nat>, enums: seq<nat>,
      catalog: seq<Service>, i: nat, k: nat, rest: seq<Byte>)
    requires TypeTable.GraphOk(g) && D.CodesOk(g) && TypeTable.SignaturesOk(g, methods)
    requires TypeTable.Closure(g, methods, messages, enums) && i < |catalog| && k < |methods|
    requires Describes(catalog[i], g, D.TypeList(messages, enums), methods)
    requires forall s <- catalog :: ServiceFits(s) && NamesFit(s)
    ensures Typed(ServerSchema(), Message(RESPONSE), ResponseValue(catalog))
    ensures var p := Decode(ToolSchema(), RESPONSE, Encode(ServerSchema(), RESPONSE, ResponseValue(catalog)) + rest);
      var types := D.TypeList(messages, enums);
      && p.Done? && |ReadCatalog(p.value)| == |catalog| && |ReadCatalog(p.value)[i].methods| == |methods|
      && var (read, m) := (ReadCatalog(p.value)[i], ReadCatalog(p.value)[i].methods[k]);
      && D.Leads(types, m.request, D.Msg(methods[k].request))
      && D.Leads(types, m.response, D.Msg(methods[k].response))
      && D.Buildable(read.types, m.request, m.response)
      && |read.types| == |types|
      && forall n :: 0 <= n < |types| ==> D.Mirrors(g, types, n, D.BuildTypes(read.types)[n])
  {
    hide ServerSchema, ToolSchema, Typed, Encode, Decode, ServiceFits, NamesFit, ReadCatalog, D.Mirrors, D.Buildable,
         D.BuildTypes, D.InGraph, TypeTable.Closure, TypeTable.GraphOk, D.CodesOk, TypeTable.SignaturesOk, D.IdOf,
         ResponseValue;
    CatalogReadBack(catalog, rest);
    D.DiscoveryRebuildsTheSchema(g, methods, messages, enums, k);
  }
}
