/** Discovery on the wire: the answer to `list_services` reaches the tool unchanged, with no entry left out. */
module Catalog {
  import opened Wire
  import opened Schemas
  import opened Items
  import opened Encoder
  import opened Decoder
  import opened Evolution
  import opened Fidelity
  import D = Discovery

  const FIELD_INFO: nat := 0
  const ENUM_VALUE_INFO: nat := 1
  const TYPE_INFO: nat := 2
  const METHOD_INFO: nat := 3
  const SERVICE_INFO: nat := 4
  const RESPONSE: nat := 5

  /** The messages of discovery, in the order in which each is defined before it is used; `short` holds the names of
      methods and fields, `long` those of types. */
  function CatalogFields(short: Kind, long: Kind): (s: seq<seq<Field>>)
    ensures |s| == 6
  {
    [[Field(1, short, false), Field(2, Uint32, false), Field(3, Int32, false), Field(4, Uint32, false),
      Field(5, Bool, false)],
     [Field(1, Bytes(64), false), Field(2, Int32, false)],
     [Field(1, Uint32, false), Field(2, Int32, false), Field(3, long, false), Field(4, Message(FIELD_INFO), true),
      Field(5, Message(ENUM_VALUE_INFO), true)],
     [Field(1, short, false), Field(2, Uint32, false), Field(3, Uint32, false), Field(4, Uint32, false),
      Field(5, Bool, false), Field(6, Bool, false)],
     [Field(1, Bytes(128), false), Field(2, Bytes(16), false), Field(3, Int32, false), Field(4, Int32, false),
      Field(5, Message(METHOD_INFO), true), Field(6, Message(TYPE_INFO), true)],
     [Field(1, Message(SERVICE_INFO), true)]]
  }

  /** The server writes the names of methods, fields and types straight from its static metadata. */
  function ServerFields(): (s: seq<seq<Field>>)
    ensures |s| == 6
  {
    CatalogFields(Text, Text)
  }

  function ServerSchema(): (s: Schema)
    ensures s == ServerFields()
  {
    NumberedInOrder(Text, Text);
    ServerFields()
  }

  /** The tool reads every name into a string of fixed size. */
  function ToolFields(): (s: seq<seq<Field>>)
    ensures |s| == 6
  {
    CatalogFields(Bytes(64), Bytes(128))
  }

  function ToolSchema(): (s: Schema)
    ensures s == ToolFields()
  {
    NumberedInOrder(Bytes(64), Bytes(128));
    ToolFields()
  }

  lemma InOrder(fields: seq<Field>, limit: nat)
    requires |fields| <= 6 && forall i :: 0 <= i < |fields| ==> fields[i].num == i + 1
    requires forall i :: 0 <= i < |fields| ==> (fields[i].kind.Message? ==> fields[i].kind.ty < limit)
    ensures MessageOk(fields, limit)
  {
  }

  lemma NumberedInOrder(short: Kind, long: Kind)
    requires !short.Message? && !long.Message?
    ensures SchemaOk(CatalogFields(short, long))
  {
    hide MessageOk;
    var s := CatalogFields(short, long);
    InOrder(s[0], 0);
    InOrder(s[1], 1);
    InOrder(s[2], 2);
    InOrder(s[3], 3);
    InOrder(s[4], 4);
    InOrder(s[5], 5);
  }

  lemma SameFields()
    ensures Aligned(ServerSchema(), ToolSchema())
    ensures Compatible(ServerSchema(), ToolSchema()) && Compatible(ServerSchema(), ServerSchema())
  {
    hide AlignedFields, CatalogFields;
    SameFieldsFor(Text, Text, Bytes(64), Bytes(128));
    AlignedCompatible(ServerSchema(), ToolSchema());
  }

  lemma SameFieldsFor(a: Kind, b: Kind, x: Kind, y: Kind)
    requires Agree(a, x) && Agree(b, y)
    ensures forall t :: 0 <= t < 6 ==> AlignedFields(CatalogFields(a, b)[t], CatalogFields(x, y)[t])
  {
    var s, r := CatalogFields(a, b), CatalogFields(x, y);
    assert AlignedFields(s[0], r[0]);
    assert AlignedFields(s[1], r[1]) by { AlignedItself(s[1]); }
    assert AlignedFields(s[2], r[2]);
    assert AlignedFields(s[3], r[3]);
    assert AlignedFields(s[4], r[4]) by { AlignedItself(s[4]); }
    assert AlignedFields(s[5], r[5]) by { AlignedItself(s[5]); }
  }

  lemma AlignedItself(fields: seq<Field>)
    ensures AlignedFields(fields, fields)
  {
  }

  // ---- what may be sent ----

  datatype Method = Method(name: seq<Byte>, id: nat, request: nat, response: nat, clientStreaming: bool, serverStreaming: bool)

  datatype Service = Service(
    name: seq<Byte>, uuid: seq<Byte>, major: int, minor: int, methods: seq<Method>, types: seq<D.DiscoveredType>)

  predicate FieldFits(f: D.DiscoveredField) {
    |f.name| < UINT32 && 0 < f.number < UINT32 && f.code < INT32 && f.typeId < UINT32
  }

  predicate ValueFits(v: (seq<Byte>, int)) {
    1 <= |v.0| <= 64 && -INT32 <= v.1 < INT32
  }

  predicate TypeFits(t: D.DiscoveredType) {
    && 0 < t.id < UINT32 && t.code < INT32 && |t.name| < UINT32
    && (forall f <- t.fields :: FieldFits(f)) && (forall v <- t.values :: ValueFits(v))
  }

  predicate MethodFits(m: Method) {
    |m.name| < UINT32 && 0 < m.id < UINT32 && m.request < UINT32 && m.response < UINT32
  }

  /** The server's metadata: ids and field numbers are not zero, and the names of services and enum values fit the
      fixed-size strings through which the server itself passes them. */
  predicate ServiceFits(s: Service) {
    && |s.name| <= 128 && |s.uuid| == 16 && -INT32 <= s.major < INT32 && -INT32 <= s.minor < INT32
    && (forall m <- s.methods :: MethodFits(m)) && (forall t <- s.types :: TypeFits(t))
  }

  // ---- what the tool has room for ----

  predicate TypeNamesFit(t: D.DiscoveredType) {
    |t.name| <= 128 && forall f <- t.fields :: |f.name| <= 64
  }

  predicate NamesFit(s: Service) {
    (forall m <- s.methods :: |m.name| <= 64) && (forall t <- s.types :: TypeNamesFit(t))
  }

  // ---- as message values ----

  function Flag(b: bool): Value {
    Num(if b then 1 else 0)
  }

  function FieldValue(f: D.DiscoveredField): Value {
    Struct([[Blob(f.name)], [Num(f.number)], [Num(f.code)], [Num(f.typeId)], [Flag(f.repeated)]])
  }

  function EnumValue(v: (seq<Byte>, int)): Value {
    Struct([[Blob(v.0)], [Num(v.1)]])
  }

  function Map<T>(xs: seq<T>, f: T -> Value): (r: seq<Value>)
    ensures |r| == |xs| && forall i :: 0 <= i < |xs| ==> r[i] == f(xs[i])
  {
    if xs == [] then [] else [f(xs[0])] + Map(xs[1..], f)
  }

  function TypeValue(t: D.DiscoveredType): Value {
    Struct([[Num(t.id)], [Num(t.code)], [Blob(t.name)], Map(t.fields, FieldValue), Map(t.values, EnumValue)])
  }

  function MethodValue(m: Method): Value {
    Struct([[Blob(m.name)], [Num(m.id)], [Num(m.request)], [Num(m.response)], [Flag(m.clientStreaming)],
            [Flag(m.serverStreaming)]])
  }

  function ServiceValue(s: Service): Value {
    Struct([[Blob(s.name)], [Blob(s.uuid)], [Num(s.major)], [Num(s.minor)], Map(s.methods, MethodValue),
            Map(s.types, TypeValue)])
  }

  function ResponseValue(services: seq<Service>): Value {
    Struct([Map(services, ServiceValue)])
  }

  /** Of the right type, unchanged by a round trip, and never left out. */
  predicate Solid(t: nat, v: Value)
    requires t < 6
  {
    && Typed(ServerSchema(), Message(t), v) && Canonical(ServerSchema(), Message(t), v)
    && !IsDefault(ServerSchema(), Message(t), v)
  }

  /** A column whose elements are solid is solid as a whole. */
  lemma {:induction false} SolidColumn(t: nat, vals: seq<Value>, num: int)
    requires t < 6 && forall i :: 0 <= i < |vals| ==> Solid(t, vals[i])
    ensures AllTyped(ServerSchema(), Message(t), vals)
    ensures CanonicalColumn(ServerSchema(), Field(num, Message(t), true), vals)
  {
    hide Typed, Canonical, IsDefault, ServerSchema, ServerFields, CatalogFields;
    if vals != [] {
      assert Solid(t, vals[0]);
      DefaultExactlyWhenHollow(ServerSchema(), Message(t), vals[0]);
      SolidColumn(t, vals[1..], num);
    }
  }

  predicate ColumnSolid(t: nat, i: nat, col: seq<Value>)
    requires t < 6 && i < |ServerSchema()[t]|
  {
    var f := FieldAt(ServerSchema(), t, i);
    ColumnTyped(ServerSchema(), f, col) && CanonicalColumn(ServerSchema(), f, col)
  }

  /** A message of solid columns of which column `w` holds something is solid. */
  lemma SolidMessage(t: nat, cols: seq<seq<Value>>, w: nat)
    requires t < 6 && |cols| == |ServerSchema()[t]| && w < |cols|
    requires forall i :: 0 <= i < |cols| ==> ColumnSolid(t, i, cols[i])
    requires ColumnSolid(t, w, cols[w]) && !AllDefault(ServerSchema(), FieldAt(ServerSchema(), t, w).kind, cols[w])
    ensures Solid(t, Struct(cols))
  {
    hide CatalogFields, ServerFields, ServerSchema;
    forall i | 0 <= i < |cols|
      ensures ColumnTyped(ServerSchema(), FieldAt(ServerSchema(), t, i), cols[i])
      ensures CanonicalColumn(ServerSchema(), FieldAt(ServerSchema(), t, i), cols[i])
    {
      assert ColumnSolid(t, i, cols[i]);
    }
    assert ColumnsTyped(ServerSchema(), t, cols);
    assert Canonical(ServerSchema(), Message(t), Struct(cols));
    assert Typed(ServerSchema(), Message(t), Struct(cols));
    assert !IsDefault(ServerSchema(), Message(t), Struct(cols));
  }

  lemma SolidScalar(t: nat, i: nat, v: Value)
    requires t < 6 && i < |ServerFields()[t]|
    requires var f := ServerFields()[t][i];
      !f.kind.Message? && !f.repeated && ScalarOk(f.kind, v) && !f.kind.Float32? && !f.kind.Float64?
    ensures ColumnSolid(t, i, [v])
    ensures AllTyped(ServerSchema(), ServerFields()[t][i].kind, [v])
    ensures !IsZero(ServerFields()[t][i].kind, v) ==> !AllDefault(ServerSchema(), ServerFields()[t][i].kind, [v])
  {
    hide CatalogFields, ServerFields, ServerSchema;
    assert [v][1..] == [];
    var f := FieldAt(ServerSchema(), t, i);
    assert f == ServerFields()[t][i];
    assert AllTyped(ServerSchema(), f.kind, [v]);
    assert Canonical(ServerSchema(), f.kind, v);
    assert CanonicalColumn(ServerSchema(), f, [v][1..]);
    assert CanonicalColumn(ServerSchema(), f, [v]);
    assert ColumnTyped(ServerSchema(), f, [v]);
  }

  lemma FieldSolid(f: D.DiscoveredField)
    requires FieldFits(f)
    ensures Solid(FIELD_INFO, FieldValue(f))
  {
    hide ColumnSolid, ServerSchema;
    SolidScalar(FIELD_INFO, 0, Blob(f.name));
    SolidScalar(FIELD_INFO, 1, Num(f.number));
    SolidScalar(FIELD_INFO, 2, Num(f.code));
    SolidScalar(FIELD_INFO, 3, Num(f.typeId));
    SolidScalar(FIELD_INFO, 4, Flag(f.repeated));
    SolidMessage(FIELD_INFO, FieldValue(f).cols, 1);
  }

  lemma EnumValueSolid(v: (seq<Byte>, int))
    requires ValueFits(v)
    ensures Solid(ENUM_VALUE_INFO, EnumValue(v))
  {
    hide ColumnSolid, ServerSchema;
    SolidScalar(ENUM_VALUE_INFO, 0, Blob(v.0));
    SolidScalar(ENUM_VALUE_INFO, 1, Num(v.1));
    SolidMessage(ENUM_VALUE_INFO, EnumValue(v).cols, 0);
  }

  lemma MethodSolid(m: Method)
    requires MethodFits(m)
    ensures Solid(METHOD_INFO, MethodValue(m))
  {
    hide ColumnSolid, ServerSchema;
    SolidScalar(METHOD_INFO, 0, Blob(m.name));
    SolidScalar(METHOD_INFO, 1, Num(m.id));
    SolidScalar(METHOD_INFO, 2, Num(m.request));
    SolidScalar(METHOD_INFO, 3, Num(m.response));
    SolidScalar(METHOD_INFO, 4, Flag(m.clientStreaming));
    SolidScalar(METHOD_INFO, 5, Flag(m.serverStreaming));
    SolidMessage(METHOD_INFO, MethodValue(m).cols, 1);
  }

  lemma SolidRepeated(t: nat, i: nat, of: nat, vals: seq<Value>)
    requires t < 6 && i < |ServerFields()[t]| && of < t
    requires ServerFields()[t][i].kind == Message(of) && ServerFields()[t][i].repeated
    requires forall k :: 0 <= k < |vals| ==> Solid(of, vals[k])
    ensures ColumnSolid(t, i, vals)
  {
    hide CatalogFields, ServerFields, ServerSchema, Solid;
    SolidColumn(of, vals, ServerFields()[t][i].num);
  }

  lemma TypeSolid(t: D.DiscoveredType)
    requires TypeFits(t)
    ensures Solid(TYPE_INFO, TypeValue(t))
  {
    hide ColumnSolid, ServerSchema, Solid;
    forall k | 0 <= k < |t.fields| ensures Solid(FIELD_INFO, FieldValue(t.fields[k])) {
      FieldSolid(t.fields[k]);
    }
    forall k | 0 <= k < |t.values| ensures Solid(ENUM_VALUE_INFO, EnumValue(t.values[k])) {
      EnumValueSolid(t.values[k]);
    }
    SolidScalar(TYPE_INFO, 0, Num(t.id));
    SolidScalar(TYPE_INFO, 1, Num(t.code));
    SolidScalar(TYPE_INFO, 2, Blob(t.name));
    SolidRepeated(TYPE_INFO, 3, FIELD_INFO, Map(t.fields, FieldValue));
    SolidRepeated(TYPE_INFO, 4, ENUM_VALUE_INFO, Map(t.values, EnumValue));
    SolidMessage(TYPE_INFO, TypeValue(t).cols, 0);
  }

  lemma ServiceSolid(s: Service)
    requires ServiceFits(s)
    ensures Solid(SERVICE_INFO, ServiceValue(s))
  {
    hide ColumnSolid, ServerSchema, Solid;
    forall k | 0 <= k < |s.methods| ensures Solid(METHOD_INFO, MethodValue(s.methods[k])) {
      MethodSolid(s.methods[k]);
    }
    forall k | 0 <= k < |s.types| ensures Solid(TYPE_INFO, TypeValue(s.types[k])) {
      TypeSolid(s.types[k]);
    }
    SolidScalar(SERVICE_INFO, 0, Blob(s.name));
    SolidScalar(SERVICE_INFO, 1, Blob(s.uuid));
    SolidScalar(SERVICE_INFO, 2, Num(s.major));
    SolidScalar(SERVICE_INFO, 3, Num(s.minor));
    SolidRepeated(SERVICE_INFO, 4, METHOD_INFO, Map(s.methods, MethodValue));
    SolidRepeated(SERVICE_INFO, 5, TYPE_INFO, Map(s.types, TypeValue));
    SolidMessage(SERVICE_INFO, ServiceValue(s).cols, 1);
  }

  lemma ResponseSolid(services: seq<Service>)
    requires forall s <- services :: ServiceFits(s)
    ensures forall k :: 0 <= k < |services| ==> Solid(SERVICE_INFO, ServiceValue(services[k]))
    ensures Typed(ServerSchema(), Message(RESPONSE), ResponseValue(services))
    ensures Canonical(ServerSchema(), Message(RESPONSE), ResponseValue(services))
  {
    hide Solid, ServerSchema, ServerFields, CatalogFields;
    var vals := Map(services, ServiceValue);
    forall k | 0 <= k < |services| ensures Solid(SERVICE_INFO, vals[k]) {
      ServiceSolid(services[k]);
    }
    ResponseColumn(vals);
  }

  lemma ResponseColumn(vals: seq<Value>)
    requires forall k :: 0 <= k < |vals| ==> Solid(SERVICE_INFO, vals[k])
    ensures Typed(ServerSchema(), Message(RESPONSE), Struct([vals]))
    ensures Canonical(ServerSchema(), Message(RESPONSE), Struct([vals]))
  {
    hide Solid, ServerSchema;
    SolidRepeated(RESPONSE, 0, SERVICE_INFO, vals);
    var f := FieldAt(ServerSchema(), RESPONSE, 0);
    assert ColumnSolid(RESPONSE, 0, vals);
    assert ColumnTyped(ServerSchema(), f, vals) && CanonicalColumn(ServerSchema(), f, vals);
  }

  // ---- which messages the tool has the room for ----

  predicate Held(t: nat, v: Value)
    requires t < 6
  {
    Typed(ServerSchema(), Message(t), v) && Holds(ServerSchema(), ToolSchema(), Message(t), Message(t), v)
  }

  predicate ColumnHeld(t: nat, i: nat, col: seq<Value>)
    requires t < 6 && i < |ServerFields()[t]| && AllTyped(ServerSchema(), ServerFields()[t][i].kind, col)
  {
    HoldsColumn(ServerSchema(), ToolSchema(), t, i, col)
  }

  lemma MessageHeld(t: nat, cols: seq<seq<Value>>)
    requires t < 6 && Typed(ServerSchema(), Message(t), Struct(cols))
    ensures |cols| == |ServerFields()[t]|
    ensures forall i :: 0 <= i < |cols| ==> AllTyped(ServerSchema(), ServerFields()[t][i].kind, cols[i])
    ensures Held(t, Struct(cols)) <==> forall i :: 0 <= i < |cols| ==> ColumnHeld(t, i, cols[i])
  {
    hide CatalogFields;
    assert ColumnsTyped(ServerSchema(), t, cols);
    forall i | 0 <= i < |cols|
      ensures ColumnTyped(ServerSchema(), FieldAt(ServerSchema(), t, i), cols[i])
      ensures AllTyped(ServerSchema(), ServerFields()[t][i].kind, cols[i])
      ensures Held(t, Struct(cols)) ==> ColumnHeld(t, i, cols[i])
    {
      assert ColumnTyped(ServerSchema(), FieldAt(ServerSchema(), t, i), cols[i]);
      assert HoldsColumns(ServerSchema(), ToolSchema(), t, cols) ==>
          HoldsColumn(ServerSchema(), ToolSchema(), t, i, cols[i]);
    }
    if forall i :: 0 <= i < |cols| ==> ColumnHeld(t, i, cols[i]) {
      forall i | 0 <= i < |cols|
        ensures ColumnTyped(ServerSchema(), FieldAt(ServerSchema(), t, i), cols[i])
        ensures HoldsColumn(ServerSchema(), ToolSchema(), t, i, cols[i])
      {
        assert ColumnHeld(t, i, cols[i]);
      }
      assert HoldsColumns(ServerSchema(), ToolSchema(), t, cols);
    }
  }

  lemma ColumnHeldBy(t: nat, i: nat, col: seq<Value>)
    requires t < 6 && i < |ServerFields()[t]| && AllTyped(ServerSchema(), ServerFields()[t][i].kind, col)
    ensures i < |ToolFields()[t]|
    ensures ColumnHeld(t, i, col) <==>
            HoldsAll(ServerSchema(), ToolSchema(), ServerFields()[t][i].kind, ToolFields()[t][i].kind, col)
  {
    hide CatalogFields, ServerFields, ToolFields;
    SameFields();
    FindAt(ToolSchema(), t, i);
  }

  lemma ScalarHeld(t: nat, i: nat, v: Value)
    requires t < 6 && i < |ServerFields()[t]| && AllTyped(ServerSchema(), ServerFields()[t][i].kind, [v])
    requires !ServerFields()[t][i].kind.Message?
    ensures i < |ToolFields()[t]|
    ensures ColumnHeld(t, i, [v]) <==>
            var c := ToolFields()[t][i].kind; c.Bytes? && v.Blob? ==> |v.bs| <= c.cap
  {
    hide CatalogFields, ServerFields, ToolFields, ColumnHeld;
    ColumnHeldBy(t, i, [v]);
    assert [v][1..] == [];
  }

  lemma {:induction false} AllHeld(t: nat, vals: seq<Value>)
    requires t < 6 && forall k :: 0 <= k < |vals| ==> Solid(t, vals[k])
    ensures AllTyped(ServerSchema(), Message(t), vals)
    ensures HoldsAll(ServerSchema(), ToolSchema(), Message(t), Message(t), vals) <==>
            forall k :: 0 <= k < |vals| ==> Held(t, vals[k])
  {
    hide CatalogFields, ServerFields, ToolFields, ServerSchema, ToolSchema, Typed, Canonical, IsDefault, Holds;
    SolidColumn(t, vals, 1);
    if vals != [] {
      AllHeld(t, vals[1..]);
      assert Held(t, vals[0]) <==> Holds(ServerSchema(), ToolSchema(), Message(t), Message(t), vals[0]);
    }
  }

  lemma RepeatedHeld(t: nat, i: nat, of: nat, vals: seq<Value>)
    requires t < 6 && i < |ServerFields()[t]| && of < t
    requires ServerFields()[t][i].kind == Message(of) && ToolFields()[t][i].kind == Message(of)
    requires forall k :: 0 <= k < |vals| ==> Solid(of, vals[k])
    ensures AllTyped(ServerSchema(), Message(of), vals)
    ensures ColumnHeld(t, i, vals) <==> forall k :: 0 <= k < |vals| ==> Held(of, vals[k])
  {
    hide CatalogFields, ServerFields, ToolFields, ServerSchema, ToolSchema, Solid, ColumnHeld, Held;
    AllHeld(of, vals);
    ColumnHeldBy(t, i, vals);
  }

  lemma FieldHeld(f: D.DiscoveredField)
    requires FieldFits(f)
    ensures Held(FIELD_INFO, FieldValue(f)) <==> |f.name| <= 64
  {
    hide ColumnHeld, Held, ServerSchema, ToolSchema;
    FieldSolid(f);
    MessageHeld(FIELD_INFO, FieldValue(f).cols);
    ScalarHeld(FIELD_INFO, 0, Blob(f.name));
    ScalarHeld(FIELD_INFO, 1, Num(f.number));
    ScalarHeld(FIELD_INFO, 2, Num(f.code));
    ScalarHeld(FIELD_INFO, 3, Num(f.typeId));
    ScalarHeld(FIELD_INFO, 4, Flag(f.repeated));
  }

  lemma EnumValueHeld(v: (seq<Byte>, int))
    requires ValueFits(v)
    ensures Held(ENUM_VALUE_INFO, EnumValue(v))
  {
    hide ColumnHeld, Held, ServerSchema, ToolSchema;
    EnumValueSolid(v);
    MessageHeld(ENUM_VALUE_INFO, EnumValue(v).cols);
    ScalarHeld(ENUM_VALUE_INFO, 0, Blob(v.0));
    ScalarHeld(ENUM_VALUE_INFO, 1, Num(v.1));
  }

  lemma MethodHeld(m: Method)
    requires MethodFits(m)
    ensures Held(METHOD_INFO, MethodValue(m)) <==> |m.name| <= 64
  {
    hide ColumnHeld, Held, ServerSchema, ToolSchema;
    MethodSolid(m);
    MessageHeld(METHOD_INFO, MethodValue(m).cols);
    ScalarHeld(METHOD_INFO, 0, Blob(m.name));
    ScalarHeld(METHOD_INFO, 1, Num(m.id));
    ScalarHeld(METHOD_INFO, 2, Num(m.request));
    ScalarHeld(METHOD_INFO, 3, Num(m.response));
    ScalarHeld(METHOD_INFO, 4, Flag(m.clientStreaming));
    ScalarHeld(METHOD_INFO, 5, Flag(m.serverStreaming));
  }

  lemma FieldsHeld(fields: seq<D.DiscoveredField>, vals: seq<Value>)
    requires |vals| == |fields| && forall k :: 0 <= k < |vals| ==> vals[k] == FieldValue(fields[k])
    requires forall f <- fields :: FieldFits(f)
    ensures AllTyped(ServerSchema(), Message(FIELD_INFO), vals)
    ensures ColumnHeld(TYPE_INFO, 3, vals) <==> forall f <- fields :: |f.name| <= 64
  {
    hide ColumnHeld, Held, ServerSchema, ToolSchema, Solid, FieldValue, FieldFits;
    forall k | 0 <= k < |fields|
      ensures Solid(FIELD_INFO, vals[k]) && (Held(FIELD_INFO, vals[k]) <==> |fields[k].name| <= 64)
    {
      FieldSolid(fields[k]);
      FieldHeld(fields[k]);
    }
    RepeatedHeld(TYPE_INFO, 3, FIELD_INFO, vals);
    assert (forall f <- fields :: |f.name| <= 64) <==> forall k :: 0 <= k < |vals| ==> Held(FIELD_INFO, vals[k]);
  }

  lemma EnumValuesHeld(values: seq<(seq<Byte>, int)>, vals: seq<Value>)
    requires |vals| == |values| && forall k :: 0 <= k < |vals| ==> vals[k] == EnumValue(values[k])
    requires forall v <- values :: ValueFits(v)
    ensures AllTyped(ServerSchema(), Message(ENUM_VALUE_INFO), vals)
    ensures ColumnHeld(TYPE_INFO, 4, vals)
  {
    hide ColumnHeld, Held, ServerSchema, ToolSchema, Solid, EnumValue, ValueFits;
    forall k | 0 <= k < |values| ensures Solid(ENUM_VALUE_INFO, vals[k]) && Held(ENUM_VALUE_INFO, vals[k]) {
      EnumValueSolid(values[k]);
      EnumValueHeld(values[k]);
    }
    RepeatedHeld(TYPE_INFO, 4, ENUM_VALUE_INFO, vals);
  }

  lemma TypeHeld(t: D.DiscoveredType)
    requires TypeFits(t)
    ensures Held(TYPE_INFO, TypeValue(t)) <==> TypeNamesFit(t)
  {
    hide ColumnHeld, Held, ServerSchema, ToolSchema, Solid;
    TypeSolid(t);
    SolidTyped(TYPE_INFO, TypeValue(t));
    var cols := TypeValue(t).cols;
    MessageHeld(TYPE_INFO, cols);
    ScalarHeld(TYPE_INFO, 0, Num(t.id));
    ScalarHeld(TYPE_INFO, 1, Num(t.code));
    ScalarHeld(TYPE_INFO, 2, Blob(t.name));
    FieldsHeld(t.fields, cols[3]);
    EnumValuesHeld(t.values, cols[4]);
  }

  lemma SolidTyped(t: nat, v: Value)
    requires t < 6 && Solid(t, v)
    ensures Typed(ServerSchema(), Message(t), v)
  {
  }

  lemma MethodsHeld(methods: seq<Method>, vals: seq<Value>)
    requires |vals| == |methods| && forall k :: 0 <= k < |vals| ==> vals[k] == MethodValue(methods[k])
    requires forall m <- methods :: MethodFits(m)
    ensures AllTyped(ServerSchema(), Message(METHOD_INFO), vals)
    ensures ColumnHeld(SERVICE_INFO, 4, vals) <==> forall m <- methods :: |m.name| <= 64
  {
    hide ColumnHeld, Held, ServerSchema, ToolSchema, Solid, MethodValue, MethodFits;
    forall k | 0 <= k < |methods|
      ensures Solid(METHOD_INFO, vals[k]) && (Held(METHOD_INFO, vals[k]) <==> |methods[k].name| <= 64)
    {
      MethodSolid(methods[k]);
      MethodHeld(methods[k]);
    }
    RepeatedHeld(SERVICE_INFO, 4, METHOD_INFO, vals);
    assert (forall m <- methods :: |m.name| <= 64) <==> forall k :: 0 <= k < |vals| ==> Held(METHOD_INFO, vals[k]);
  }

  lemma TypesHeld(types: seq<D.DiscoveredType>, vals: seq<Value>)
    requires |vals| == |types| && forall k :: 0 <= k < |vals| ==> vals[k] == TypeValue(types[k])
    requires forall t <- types :: TypeFits(t)
    ensures AllTyped(ServerSchema(), Message(TYPE_INFO), vals)
    ensures ColumnHeld(SERVICE_INFO, 5, vals) <==> forall t <- types :: TypeNamesFit(t)
  {
    hide ColumnHeld, Held, ServerSchema, ToolSchema, Solid, TypeNamesFit, TypeValue, TypeFits;
    forall k | 0 <= k < |types|
      ensures Solid(TYPE_INFO, vals[k]) && (Held(TYPE_INFO, vals[k]) <==> TypeNamesFit(types[k]))
    {
      TypeSolid(types[k]);
      TypeHeld(types[k]);
    }
    RepeatedHeld(SERVICE_INFO, 5, TYPE_INFO, vals);
    assert (forall t <- types :: TypeNamesFit(t)) <==> forall k :: 0 <= k < |vals| ==> Held(TYPE_INFO, vals[k]);
  }

  lemma ServiceHeld(s: Service)
    requires ServiceFits(s)
    ensures Held(SERVICE_INFO, ServiceValue(s)) <==> NamesFit(s)
  {
    hide ColumnHeld, Held, ServerSchema, ToolSchema, Solid, TypeNamesFit;
    ServiceSolid(s);
    SolidTyped(SERVICE_INFO, ServiceValue(s));
    var cols := ServiceValue(s).cols;
    MessageHeld(SERVICE_INFO, cols);
    ScalarHeld(SERVICE_INFO, 0, Blob(s.name));
    ScalarHeld(SERVICE_INFO, 1, Blob(s.uuid));
    ScalarHeld(SERVICE_INFO, 2, Num(s.major));
    ScalarHeld(SERVICE_INFO, 3, Num(s.minor));
    MethodsHeld(s.methods, cols[4]);
    TypesHeld(s.types, cols[5]);
  }

  lemma ResponseHeld(services: seq<Service>)
    requires forall s <- services :: ServiceFits(s)
    ensures Held(RESPONSE, ResponseValue(services)) <==> forall s <- services :: NamesFit(s)
  {
    hide ColumnHeld, Held, ServerSchema, ToolSchema, Solid, NamesFit;
    var vals := Map(services, ServiceValue);
    ResponseSolid(services);
    forall k | 0 <= k < |services| ensures Held(SERVICE_INFO, vals[k]) <==> NamesFit(services[k]) {
      ServiceHeld(services[k]);
    }
    MessageHeld(RESPONSE, [vals]);
    RepeatedHeld(RESPONSE, 0, SERVICE_INFO, vals);
    assert (forall s <- services :: NamesFit(s)) <==> forall k :: 0 <= k < |vals| ==> Held(SERVICE_INFO, vals[k]);
  }

  // ---- the main results ----

  /** The tool reads back exactly the services the server described, every service, method, type, field and enum value,
      in order and whatever their other fields hold, when it has the room for the name of every method, type and field,
      and refuses the whole catalog when it does not. */
  lemma CatalogArrives(services: seq<Service>, rest: seq<Byte>)
    requires forall s <- services :: ServiceFits(s)
    ensures Typed(ServerSchema(), Message(RESPONSE), ResponseValue(services))
    ensures Decode(ToolSchema(), RESPONSE, Encode(ServerSchema(), RESPONSE, ResponseValue(services)) + rest) ==
            if forall s <- services :: NamesFit(s) then Done(ResponseValue(services), rest) else Bad
  {
    hide CatalogFields, ServerFields, ToolFields, ServerSchema, ToolSchema, Solid, NamesFit;
    var v := ResponseValue(services);
    ResponseSolid(services);
    ResponseHeld(services);
    SameFields();
    NestRank(ServerSchema(), Message(RESPONSE), v);
    PruneColumnsDepth(ServerSchema(), RESPONSE, v.cols, 0);
    AlignedConvert(ServerSchema(), ToolSchema(), Message(RESPONSE), v);
    ConvertFixes(ServerSchema(), Message(RESPONSE), v);
    DecodeEncoded(ServerSchema(), ToolSchema(), RESPONSE, v, rest);
  }

  /** One method with a name of 65 bytes makes the whole catalog unreadable for the tool. */
  lemma LongNameStopsTheTool(rest: seq<Byte>)
    ensures var name := seq(65, _ => 97 as Byte);
      var services := [Service([115], seq(16, _ => 0 as Byte), 1, 0, [Method(name, 1, 0, 0, false, false)], [])];
      && (forall s <- services :: ServiceFits(s)) && Typed(ServerSchema(), Message(RESPONSE), ResponseValue(services))
      && Decode(ToolSchema(), RESPONSE, Encode(ServerSchema(), RESPONSE, ResponseValue(services)) + rest) == Bad
  {
    hide ServerSchema, ToolSchema, Typed, Encode, Decode;
    var m := Method(seq(65, _ => 97 as Byte), 1, 0, 0, false, false);
    var s := Service([115], seq(16, _ => 0 as Byte), 1, 0, [m], []);
    assert m in s.methods && |m.name| == 65;
    assert ServiceFits(s) && !NamesFit(s);
    assert s in [s];
    CatalogArrives([s], rest);
  }
}
