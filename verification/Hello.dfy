/** The server's hello and how client stubs learn where their service's endpoints begin. */
module Hello {
  import opened Wire
  import opened Schemas
  import opened Items
  import opened Encoder
  import opened Decoder
  import opened Reader
  import opened Evolution
  import opened Fidelity
  import opened Endpoints

  const PROTOCOL_VERSION: nat := 1
  const VERSION_FIELD := 1
  const SERVICES_FIELD := 2

  /** Message 0 is ServiceDef: uuid, major version, minor version, number of endpoints. */
  const DEF_FIELDS := [
    Field(1, Bytes(16), false), Field(2, Int32, false), Field(3, Int32, false), Field(4, Int32, false)]

  function HelloSchema(): (s: Schema)
    ensures |s| == 1 && s[0] == DEF_FIELDS
  {
    assert forall i :: 0 <= i < |DEF_FIELDS| ==> DEF_FIELDS[i].num == i + 1;
    [DEF_FIELDS]
  }

  predicate ServiceOk(s: Service) {
    && MethodsOk(s) && |s.uuid| == 16
    && -INT32 <= s.major < INT32 && -INT32 <= s.minor < INT32 && |s.methods| < INT32
  }

  predicate AllOk(services: seq<Service>) {
    forall i :: 0 <= i < |services| ==> ServiceOk(services[i])
  }

  /** `to_service_def`. */
  function Def(s: Service): Value {
    Struct([[Blob(s.uuid)], [Num(s.major)], [Num(s.minor)], [Num(|s.methods|)]])
  }

  lemma DefTyped(s: Service)
    requires ServiceOk(s)
    ensures Typed(HelloSchema(), Message(0), Def(s))
  {
    var cols := Def(s).cols;
    forall i | 0 <= i < 4 ensures ColumnTyped(HelloSchema(), FieldAt(HelloSchema(), 0, i), cols[i]) {
      assert cols[i][1..] == [];
    }
  }

  /** A ServiceDef is never left out by the encoder: its uuid is not empty. */
  lemma DefNotDefault(s: Service)
    requires ServiceOk(s)
    ensures Typed(HelloSchema(), Message(0), Def(s)) && !IsDefault(HelloSchema(), Message(0), Def(s))
  {
    DefTyped(s);
    assert FieldAt(HelloSchema(), 0, 0) == Field(1, Bytes(16), false);
    assert !AllDefault(HelloSchema(), Bytes(16), Def(s).cols[0]);
  }

  /** The client gets back the ServiceDef the server sent. */
  lemma DefRoundTrip(s: Service, rest: seq<Byte>)
    requires ServiceOk(s)
    ensures Typed(HelloSchema(), Message(0), Def(s))
    ensures Decode(HelloSchema(), 0, Encode(HelloSchema(), 0, Def(s)) + rest) == Done(Def(s), rest)
  {
    DefTyped(s);
    NestRank(HelloSchema(), Message(0), Def(s));
    RoundTripExact(HelloSchema(), 0, Def(s), rest);
    DefCanonical(s);
  }

  lemma DefCanonical(s: Service)
    requires ServiceOk(s) && Typed(HelloSchema(), Message(0), Def(s))
    ensures Canonical(HelloSchema(), Message(0), Def(s))
  {
  }

  // ---- the server's side ----

  function DefsBytes(services: seq<Service>): seq<Byte>
    requires AllOk(services)
  {
    if services == [] then []
    else
      DefTyped(services[0]);
      TagBytes(SERVICES_FIELD, StartType) + (Encode(HelloSchema(), 0, Def(services[0])) + DefsBytes(services[1..]))
  }

  function HelloBytes(services: seq<Service>): seq<Byte>
    requires AllOk(services)
  {
    TagBytes(VERSION_FIELD, VarIntType) + (Varint(PROTOCOL_VERSION) + (DefsBytes(services) + [END_BYTE]))
  }

  /** `send_service_description`: the ServiceDef as a field of the hello, through an encoder with an empty stack. */
  method SendServiceDescription(out: Output, service: Service)
    requires ServiceOk(service)
    modifies out
    ensures Typed(HelloSchema(), Message(0), Def(service))
    ensures out.bytes ==
            old(out.bytes) + (TagBytes(SERVICES_FIELD, StartType) + Encode(HelloSchema(), 0, Def(service)))
  {
    DefNotDefault(service);
    NestRank(HelloSchema(), Message(0), Def(service));
    RoomForNest(HelloSchema(), Message(0), Def(service), 0);
    DefPrinted(service);
    var stack := new Stack();
    var ok := MarshalField(out, HelloSchema(), SERVICES_FIELD, Message(0), Def(service), stack);
  }

  lemma DefPrinted(s: Service)
    requires ServiceOk(s) && Typed(HelloSchema(), Message(0), Def(s))
    requires !IsDefault(HelloSchema(), Message(0), Def(s))
    ensures var items := Prune(HelloSchema(), SERVICES_FIELD, Message(0), Def(s));
      AllSound(items) && Flushed([], items) == TagBytes(SERVICES_FIELD, StartType) + Encode(HelloSchema(), 0, Def(s))
  {
    hide HelloSchema, Def, Hollow, IsDefault, Typed, PruneColumns, TagBytes;
    PruneSound(HelloSchema(), SERVICES_FIELD, Message(0), Def(s));
    PrunedAwayExactlyWhenDefault(HelloSchema(), 0, Def(s));
    var items := PruneMessage(HelloSchema(), 0, Def(s));
    PrintOne(Group(SERVICES_FIELD, items));
    Regroup(TagBytes(SERVICES_FIELD, StartType), Print(items), [END_BYTE]);
  }

  /** `server_hello`, after its first byte. */
  method SendHello(out: Output, services: seq<Service>)
    requires AllOk(services)
    modifies out
    ensures out.bytes == old(out.bytes) + HelloBytes(services)
  {
    out.Write(TagBytes(VERSION_FIELD, VarIntType));
    out.Write(Varint(PROTOCOL_VERSION));
    ghost var start := out.bytes;
    var left := services;
    while left != []
      invariant AllOk(left) && out.bytes + DefsBytes(left) == start + DefsBytes(services)
    {
      ghost var before := out.bytes;
      SendServiceDescription(out, left[0]);
      ghost var def := Encode(HelloSchema(), 0, Def(left[0]));
      Regroup(before, TagBytes(SERVICES_FIELD, StartType) + def, DefsBytes(left[1..]));
      Regroup(TagBytes(SERVICES_FIELD, StartType), def, DefsBytes(left[1..]));
      left := left[1..];
    }
    assert out.bytes + [] == out.bytes;
    out.Write([END_BYTE]);
    Regroup(start, DefsBytes(services), [END_BYTE]);
    Regroup(old(out.bytes), TagBytes(VERSION_FIELD, VarIntType), Varint(PROTOCOL_VERSION));
    Regroup(old(out.bytes), TagBytes(VERSION_FIELD, VarIntType) + Varint(PROTOCOL_VERSION), DefsBytes(services) + [END_BYTE]);
    Regroup(TagBytes(VERSION_FIELD, VarIntType), Varint(PROTOCOL_VERSION), DefsBytes(services) + [END_BYTE]);
  }

  // ---- the client's side ----

  /** What `handle_service_def` reads from and writes to a stub; without an offset the stub has no client. */
  datatype StubState = StubState(uuid: seq<Byte>, major: int, minor: int, offset: Option<int>)

  /** A decoded ServiceDef has its four fields. */
  predicate IsDef(cols: seq<seq<Value>>) {
    && |cols| == 4 && (forall i :: 0 <= i < 4 ==> |cols[i]| == 1)
    && cols[0][0].Blob? && cols[1][0].Num? && cols[2][0].Num? && cols[3][0].Num?
  }

  lemma {:induction false} DecodedDef(bs: seq<Byte>, cols: seq<seq<Value>>, nesting: int)
    requires IsDef(cols)
    ensures var p := DecodeFields(HelloSchema(), 0, bs, cols, nesting);
      p.Done? ==> p.value.Struct? && IsDef(p.value.cols)
    decreases |bs|
  {
    var tag := ReadTag(bs);
    if tag.Done? && !tag.value.wire.EndType? {
      match Find(HelloSchema()[0], tag.value.num)
      case None =>
        var p := SkipField(tag.rest, tag.value.wire, nesting - 1);
        if p.Done? {
          DecodedDef(p.rest, cols, nesting);
        }
      case Some(i) =>
        var f := FieldAt(HelloSchema(), 0, i);
        var p := DecodeValue(HelloSchema(), f.kind, tag.rest, nesting - 1);
        if p.Done? {
          DecodedDef(p.rest, cols[i := Store(f, cols[i], p.value)], nesting);
        }
    }
  }

  function FirstWith(stubs: seq<StubState>, uuid: seq<Byte>): (r: Option<nat>)
    ensures r.Some? ==> r.value < |stubs| && stubs[r.value].uuid == uuid
    ensures r.Some? ==> forall j :: 0 <= j < r.value ==> stubs[j].uuid != uuid
    ensures r.None? ==> forall j :: 0 <= j < |stubs| ==> stubs[j].uuid != uuid
  {
    if stubs == [] then None
    else if stubs[0].uuid == uuid then Some(0)
    else match FirstWith(stubs[1..], uuid)
         case None => None
         case Some(j) => Some(j + 1)
  }

  /** The server's version serves the stub: the same major version and at least its minor version. */
  predicate Serves(major: int, minor: int, stub: StubState) {
    stub.major == major && stub.minor <= minor
  }

  /** `handle_service_def`: the first stub of that service learns the offset; `None` is a version error. */
  function Attach(stubs: seq<StubState>, uuid: seq<Byte>, major: int, minor: int, offset: int): (r: Option<seq<StubState>>)
    ensures r.Some? ==> |r.value| == |stubs|
  {
    match FirstWith(stubs, uuid)
    case None => Some(stubs)
    case Some(j) =>
      if Serves(major, minor, stubs[j]) then Some(stubs[j := stubs[j].(offset := Some(offset))]) else None
  }

  /** The next offset and the stubs after one field of the hello. */
  datatype Learning = Learning(offset: int, stubs: seq<StubState>)

  function ReadField(bs: seq<Byte>, tag: Tag, offset: int, stubs: seq<StubState>): (p: Parse<Learning>)
    ensures p.Done? ==> |p.rest| <= |bs|
  {
    if tag.num == SERVICES_FIELD then
      var (v, r) :- Decode(HelloSchema(), 0, bs);
      DecodedDef(bs, DefaultColumns(HelloSchema(), 0), MAX_NESTING);
      match Attach(stubs, v.cols[0][0].bs, v.cols[1][0].n, v.cols[2][0].n, offset)
      case None => Bad
      case Some(after) => Done(Learning(offset + v.cols[3][0].n, after), r)
    else if tag.num == VERSION_FIELD then
      var (version, r) :- ReadUint32(bs);
      if version != PROTOCOL_VERSION then Bad else Done(Learning(offset, stubs), r)
    else
      var (_, r) :- SkipField(bs, tag.wire, MAX_NESTING);
      Done(Learning(offset, stubs), r)
  }

  /** `read_services_def`. */
  function ReadHello(bs: seq<Byte>, offset: int, stubs: seq<StubState>): (p: Parse<seq<StubState>>)
    decreases |bs|
  {
    var (tag, r) :- ReadTag(bs);
    if tag.wire.EndType? then Done(stubs, r)
    else
      var (next, r2) :- ReadField(r, tag, offset, stubs);
      ReadHello(r2, next.offset, next.stubs)
  }

  /** What the stubs learn from the services from the `i`-th on; `None` is a version error. */
  function Learn(services: seq<Service>, i: nat, stubs: seq<StubState>): (r: Option<seq<StubState>>)
    requires i <= |services|
    ensures r.Some? ==> |r.value| == |stubs|
    decreases |services| - i
  {
    if i == |services| then Some(stubs)
    else
      var s := services[i];
      match Attach(stubs, s.uuid, s.major, s.minor, 1 + EndpointsBefore(services, i))
      case None => None
      case Some(after) => Learn(services, i + 1, after)
  }

  lemma ReadOneDef(s: Service, later: seq<Byte>, offset: int, stubs: seq<StubState>)
    requires ServiceOk(s)
    ensures Typed(HelloSchema(), Message(0), Def(s))
    ensures ReadHello(TagBytes(SERVICES_FIELD, StartType) + (Encode(HelloSchema(), 0, Def(s)) + later), offset, stubs) ==
      match Attach(stubs, s.uuid, s.major, s.minor, offset)
      case None => Bad
      case Some(after) => ReadHello(later, offset + |s.methods|, after)
  {
    hide Encode, Decode, Attach, TagBytes, Typed;
    DefRoundTrip(s, later);
    TagRoundTrip(SERVICES_FIELD, StartType, Encode(HelloSchema(), 0, Def(s)) + later);
  }

  lemma OneMore(services: seq<Service>, i: nat)
    requires i < |services|
    ensures EndpointsBefore(services, i + 1) == EndpointsBefore(services, i) + |services[i].methods|
  {
  }

  lemma ReadEnd(rest: seq<Byte>, offset: int, stubs: seq<StubState>)
    ensures ReadHello([END_BYTE] + rest, offset, stubs) == Done(stubs, rest)
  {
    ReadEndByte(rest);
  }

  lemma ReadVersion(later: seq<Byte>, offset: int, stubs: seq<StubState>)
    ensures ReadHello(TagBytes(VERSION_FIELD, VarIntType) + (Varint(PROTOCOL_VERSION) + later), offset, stubs) ==
            ReadHello(later, offset, stubs)
  {
    hide Decode, Attach, TagBytes, SkipField, Varint, ReadUint32;
    TagRoundTrip(VERSION_FIELD, VarIntType, Varint(PROTOCOL_VERSION) + later);
    ReadUint32RoundTrip(PROTOCOL_VERSION, later);
  }

  lemma {:induction false} ReadDefs(services: seq<Service>, i: nat, stubs: seq<StubState>, rest: seq<Byte>)
    requires AllOk(services) && i <= |services|
    ensures ReadHello(DefsBytes(services[i..]) + ([END_BYTE] + rest), 1 + EndpointsBefore(services, i), stubs) ==
      match Learn(services, i, stubs)
      case None => Bad
      case Some(after) => Done(after, rest)
    decreases |services| - i
  {
    hide ReadHello, Encode, Attach, TagBytes, ServiceOk, Typed, EndpointsBefore;
    assert |services| <= i ==> services[i..] == [];
    if i == |services| {
      assert [] + ([END_BYTE] + rest) == [END_BYTE] + rest;
      ReadEnd(rest, 1 + EndpointsBefore(services, i), stubs);
    } else {
      OneMore(services, i);
      var s := services[i];
      assert services[i..][1..] == services[i + 1..];
      var later := DefsBytes(services[i + 1..]);
      var end := [END_BYTE] + rest;
      DefTyped(s);
      var tag, def := TagBytes(SERVICES_FIELD, StartType), Encode(HelloSchema(), 0, Def(s));
      Regroup(tag, def + later, end);
      Regroup(def, later, end);
      ReadOneDef(s, later + end, 1 + EndpointsBefore(services, i), stubs);
      var after := Attach(stubs, s.uuid, s.major, s.minor, 1 + EndpointsBefore(services, i));
      if after.Some? {
        ReadDefs(services, i + 1, after.value, rest);
      }
    }
  }

  /** The stubs learn from the bytes exactly what the server's service list says. */
  lemma ReadHelloBytes(services: seq<Service>, stubs: seq<StubState>, rest: seq<Byte>)
    requires AllOk(services)
    ensures ReadHello(HelloBytes(services) + rest, 1, stubs) ==
      match Learn(services, 0, stubs)
      case None => Bad
      case Some(after) => Done(after, rest)
  {
    hide DefsBytes, Encode, Learn, ReadHello, TagBytes, ServiceOk, AllOk;
    var defs, version := DefsBytes(services), Varint(PROTOCOL_VERSION);
    Regroup(TagBytes(VERSION_FIELD, VarIntType), version + (defs + [END_BYTE]), rest);
    Regroup(version, defs + [END_BYTE], rest);
    Regroup(defs, [END_BYTE], rest);
    ReadVersion(defs + ([END_BYTE] + rest), 1, stubs);
    assert services[0..] == services;
    ReadDefs(services, 0, stubs, rest);
  }

  // ---- what the stubs know afterwards ----

  predicate DistinctServices(services: seq<Service>) {
    forall i, j :: 0 <= i < j < |services| ==> services[i].uuid != services[j].uuid
  }

  /** Stub `j` is the first one of service `k`, and was generated for another major version of it or for a later minor
      version than the server has. */
  predicate Outdated(services: seq<Service>, k: nat, stubs: seq<StubState>, j: nat) {
    && k < |services| && j < |stubs| && stubs[j].uuid == services[k].uuid
    && (forall i :: 0 <= i < j ==> stubs[i].uuid != services[k].uuid)
    && (stubs[j].major != services[k].major || stubs[j].minor > services[k].minor)
  }

  predicate AnyOutdated(services: seq<Service>, from: nat, stubs: seq<StubState>) {
    exists k, j :: from <= k < |services| && 0 <= j < |stubs| && Outdated(services, k, stubs, j)
  }

  lemma {:induction false} FirstKept(stubs: seq<StubState>, j: nat, offset: Option<int>, uuid: seq<Byte>)
    requires j < |stubs|
    ensures FirstWith(stubs[j := stubs[j].(offset := offset)], uuid) == FirstWith(stubs, uuid)
  {
    var after := stubs[j := stubs[j].(offset := offset)];
    if stubs[0].uuid != uuid {
      if j == 0 {
        assert after[1..] == stubs[1..];
      } else {
        assert after[1..] == stubs[1..][j - 1 := stubs[j].(offset := offset)];
        FirstKept(stubs[1..], j - 1, offset, uuid);
      }
    }
  }

  /** Giving stub `at` an offset changes no version. */
  lemma OutdatedKept(services: seq<Service>, from: nat, stubs: seq<StubState>, at: nat, offset: Option<int>)
    requires at < |stubs|
    ensures AnyOutdated(services, from, stubs[at := stubs[at].(offset := offset)]) <==> AnyOutdated(services, from, stubs)
  {
    var after := stubs[at := stubs[at].(offset := offset)];
    forall k, j | 0 <= k < |services| && 0 <= j < |stubs|
      ensures Outdated(services, k, after, j) <==> Outdated(services, k, stubs, j)
    {
      assert forall i :: 0 <= i < |stubs| ==> after[i].uuid == stubs[i].uuid;
    }
  }

  /** One more service to look at. */
  lemma OutdatedFrom(services: seq<Service>, from: nat, stubs: seq<StubState>)
    requires from < |services|
    ensures AnyOutdated(services, from, stubs) <==>
      AnyOutdated(services, from + 1, stubs)
      || (FirstWith(stubs, services[from].uuid).Some?
          && Outdated(services, from, stubs, FirstWith(stubs, services[from].uuid).value))
  {
    var first := FirstWith(stubs, services[from].uuid);
    if first.Some? && Outdated(services, from, stubs, first.value) {
      assert AnyOutdated(services, from, stubs);
    }
    if AnyOutdated(services, from + 1, stubs) {
      var k, j :| from + 1 <= k < |services| && 0 <= j < |stubs| && Outdated(services, k, stubs, j);
      assert AnyOutdated(services, from, stubs);
    }
    if AnyOutdated(services, from, stubs) {
      var k, j :| from <= k < |services| && 0 <= j < |stubs| && Outdated(services, k, stubs, j);
      if k == from {
        assert first == Some(j);
      }
    }
  }

  /** The hello is refused exactly when some service is older than, or of another major version than, its first stub. */
  lemma {:induction false} RefusedExactly(services: seq<Service>, i: nat, stubs: seq<StubState>)
    requires i <= |services|
    ensures Learn(services, i, stubs).None? <==> AnyOutdated(services, i, stubs)
    decreases |services| - i
  {
    hide EndpointsBefore, AnyOutdated;
    if i == |services| {
      NoneOutdated(services, stubs);
    } else {
      var s := services[i];
      OutdatedFrom(services, i, stubs);
      var after := Attach(stubs, s.uuid, s.major, s.minor, 1 + EndpointsBefore(services, i));
      if after.Some? {
        RefusedExactly(services, i + 1, after.value);
        var first := FirstWith(stubs, s.uuid);
        if first.Some? {
          OutdatedKept(services, i + 1, stubs, first.value, Some(1 + EndpointsBefore(services, i)));
        }
      }
    }
  }

  lemma NoneOutdated(services: seq<Service>, stubs: seq<StubState>)
    ensures !AnyOutdated(services, |services|, stubs)
  {
  }

  /** Where stub `j` believes its endpoints begin once the services from the `i`-th on have been read: it listens to the
      service of its uuid if it is the first stub of that uuid. */
  function LearnedOffset(services: seq<Service>, i: nat, stubs: seq<StubState>, j: nat): Option<int>
    requires i <= |services| && j < |stubs|
    decreases |services| - i
  {
    if i == |services| then stubs[j].offset
    else if FirstWith(stubs, services[i].uuid) == Some(j) then Some(1 + EndpointsBefore(services, i))
    else LearnedOffset(services, i + 1, stubs, j)
  }

  /** Giving stub `at` an offset changes nothing for what the later services are told apart by. */
  lemma {:induction false} AttachedKept(
      services: seq<Service>, i: nat, stubs: seq<StubState>, at: nat, offset: Option<int>, j: nat)
    requires i <= |services| && at < |stubs| && j < |stubs|
    requires forall k :: i <= k < |services| ==> services[k].uuid != stubs[at].uuid
    ensures var after := stubs[at := stubs[at].(offset := offset)];
      LearnedOffset(services, i, after, j) == (if j == at then offset else LearnedOffset(services, i, stubs, j))
    decreases |services| - i
  {
    hide EndpointsBefore;
    if i < |services| {
      FirstKept(stubs, at, offset, services[i].uuid);
      AttachedKept(services, i + 1, stubs, at, offset, j);
    }
  }

  /** The hello is refused exactly when some service is older than, or of another major version than, its first stub;
      otherwise each stub knows its offset. */
  lemma {:induction false} LearnMeaning(services: seq<Service>, i: nat, stubs: seq<StubState>, j: nat)
    requires DistinctServices(services) && i <= |services| && j < |stubs|
    ensures Learn(services, i, stubs).None? <==> AnyOutdated(services, i, stubs)
    ensures Learn(services, i, stubs).Some? ==>
      Learn(services, i, stubs).value[j] == stubs[j].(offset := LearnedOffset(services, i, stubs, j))
    decreases |services| - i
  {
    hide EndpointsBefore, AnyOutdated;
    RefusedExactly(services, i, stubs);
    if i < |services| {
      var s := services[i];
      var first := FirstWith(stubs, s.uuid);
      var after := Attach(stubs, s.uuid, s.major, s.minor, 1 + EndpointsBefore(services, i));
      if after.Some? {
        LearnMeaning(services, i + 1, after.value, j);
        if first.Some? {
          AttachedKept(services, i + 1, stubs, first.value, Some(1 + EndpointsBefore(services, i)), j);
        }
      }
    }
  }

  /** Versions decide, whatever else is in the lists: the client refuses the server's hello exactly when a service's first
      stub was generated for another major version or for a later minor version than the server has. */
  lemma VersionsDecide(services: seq<Service>, stubs: seq<StubState>, rest: seq<Byte>)
    requires AllOk(services)
    ensures var p := ReadHello(HelloBytes(services) + rest, 1, stubs);
      && (p.Bad? <==> exists k, j :: 0 <= k < |services| && 0 <= j < |stubs| && Outdated(services, k, stubs, j))
      && (!p.Bad? ==> p.Done? && p.rest == rest)
  {
    hide HelloBytes, ReadHello, Learn, AllOk;
    ReadHelloBytes(services, stubs, rest);
    RefusedExactly(services, 0, stubs);
  }

  /** A service's first stub learns that service's offset, wherever the service stands in the list. */
  lemma {:induction false} OffsetOf(services: seq<Service>, i: nat, stubs: seq<StubState>, j: nat, k: nat)
    requires DistinctServices(services) && i <= k < |services| && FirstWith(stubs, services[k].uuid) == Some(j)
    ensures LearnedOffset(services, i, stubs, j) == Some(1 + EndpointsBefore(services, k))
    decreases k - i
  {
    hide EndpointsBefore, FirstWith;
    if i < k {
      OffsetOf(services, i + 1, stubs, j, k);
    }
  }

  /** From the bytes of the hello to the method that runs: the hello is refused exactly when some service is older than,
      or of another major version than, its first stub; otherwise the first stub of service `i` learns an offset under
      which its method in place `k` is called by the id of that very method's entry in the server's dispatch table. */
  lemma StubsReachTheirMethods(services: seq<Service>, stubs: seq<StubState>, rest: seq<Byte>, i: nat, j: nat, k: nat)
    requires AllOk(services) && DistinctServices(services)
    requires i < |services| && k < |services[i].methods| && FirstWith(stubs, services[i].uuid) == Some(j)
    ensures |services[i].sorted| == |services[i].methods|
    ensures var p := ReadHello(HelloBytes(services) + rest, 1, stubs);
      if AnyOutdated(services, 0, stubs) then p.Bad?
      else
        && p.Done? && p.rest == rest && |p.value| == |stubs| && p.value[j].offset.Some?
        && var n := k + p.value[j].offset.value;
           1 <= n <= |Table(services, 0)| && Table(services, 0)[n - 1] == Slot(i, services[i].sorted[k])
  {
    hide HelloBytes, ReadHello, Learn, Table, MethodsOk, FirstWith, LearnedOffset, AnyOutdated;
    ReadHelloBytes(services, stubs, rest);
    LearnMeaning(services, 0, stubs, j);
    OffsetOf(services, 0, stubs, j, i);
    TableAt(services, 0, i, k);
  }

  /** The id on the wire of an event whose emitter keeps the index under which it was dispatched. */
  function EventId(index: nat): nat {
    index + 1
  }

  /** From the index the server keeps for an emitter to the callback that runs: the event's id is the one under which a
      stub registers the callback of a method exactly for the method that was dispatched, whichever stubs and methods
      there are. */
  lemma EventsReachTheirStubs(
      services: seq<Service>, stubs: seq<StubState>, rest: seq<Byte>, index: nat, i: nat, j: nat, k: nat,
      i2: nat, j2: nat, k2: nat)
    requires AllOk(services) && DistinctServices(services) && !AnyOutdated(services, 0, stubs)
    requires i < |services| && k < |services[i].methods| && FirstWith(stubs, services[i].uuid) == Some(j)
    requires i2 < |services| && k2 < |services[i2].methods| && FirstWith(stubs, services[i2].uuid) == Some(j2)
    requires |services[i].sorted| == |services[i].methods|
    requires index < |Table(services, 0)| && Table(services, 0)[index] == Slot(i, services[i].sorted[k])
    ensures var p := ReadHello(HelloBytes(services) + rest, 1, stubs);
      && p.Done? && |p.value| == |stubs| && p.value[j2].offset.Some?
      && (EventId(index) == k2 + p.value[j2].offset.value <==> i == i2 && k == k2)
  {
    hide HelloBytes, ReadHello, Learn, Table, FirstWith, LearnedOffset, AnyOutdated;
    StubsReachTheirMethods(services, stubs, rest, i, j, k);
    StubsReachTheirMethods(services, stubs, rest, i2, j2, k2);
    var n2 := k2 + ReadHello(HelloBytes(services) + rest, 1, stubs).value[j2].offset.value;
    assert MethodsOk(services[i]) && MethodsOk(services[i2]);
    if n2 - 1 < index {
      TableDistinct(services, 0, n2 - 1, index);
    } else if index < n2 - 1 {
      TableDistinct(services, 0, index, n2 - 1);
    } else if i == i2 {
      assert services[i].sorted[k].id == services[i].sorted[k2].id;
    }
  }

  // ---- the client as it runs ----

  class Stub {
    const uuid: seq<Byte>
    const major: int
    const minor: int
    var offset: Option<int>

    constructor (uuid: seq<Byte>, major: int, minor: int)
      ensures this.uuid == uuid && this.major == major && this.minor == minor && offset == None
    {
      this.uuid, this.major, this.minor, offset := uuid, major, minor, None;
    }

    ghost function State(): StubState
      reads this
    {
      StubState(uuid, major, minor, offset)
    }
  }

  ghost function States(stubs: seq<Stub>): (r: seq<StubState>)
    reads stubs
    ensures |r| == |stubs| && forall j :: 0 <= j < |stubs| ==> r[j] == stubs[j].State()
  {
    if stubs == [] then [] else [stubs[0].State()] + States(stubs[1..])
  }

  predicate DistinctStubs(stubs: seq<Stub>) {
    forall i, j :: 0 <= i < j < |stubs| ==> stubs[i] != stubs[j]
  }

  lemma FirstIs(stubs: seq<StubState>, uuid: seq<Byte>, j: nat)
    requires j < |stubs| && stubs[j].uuid == uuid && forall i :: 0 <= i < j ==> stubs[i].uuid != uuid
    ensures FirstWith(stubs, uuid) == Some(j)
  {
  }

  /** `handle_service_def`. */
  method HandleServiceDef(stubs: seq<Stub>, uuid: seq<Byte>, major: int, minor: int, offset: int) returns (ok: bool)
    requires DistinctStubs(stubs)
    modifies stubs
    ensures var r := Attach(old(States(stubs)), uuid, major, minor, offset);
      ok == r.Some? && (ok ==> States(stubs) == r.value)
    ensures !ok <==>
      exists j :: 0 <= j < |stubs| && stubs[j].uuid == uuid && (forall i :: 0 <= i < j ==> stubs[i].uuid != uuid)
                  && (stubs[j].major != major || stubs[j].minor > minor)
    ensures ok ==>
      forall j :: 0 <= j < |stubs| ==>
        stubs[j].offset == (if stubs[j].uuid == uuid && forall i :: 0 <= i < j ==> stubs[i].uuid != uuid
                            then Some(offset) else old(stubs[j].offset))
  {
    hide FirstWith, States;
    ghost var before := States(stubs);
    for i := 0 to |stubs|
      invariant forall j :: 0 <= j < i ==> stubs[j].uuid != uuid
      invariant States(stubs) == before
    {
      if stubs[i].uuid == uuid {
        FirstIs(before, uuid, i);
        if stubs[i].major != major || stubs[i].minor > minor {
          return false;
        }
        stubs[i].offset := Some(offset);
        assert States(stubs) == before[i := before[i].(offset := Some(offset))];
        return true;
      }
    }
    return true;
  }

  method ReadHelloField(input: Input, tag: Tag, offset: int, stubs: seq<Stub>) returns (ok: bool, next: int)
    requires DistinctStubs(stubs)
    modifies input, stubs
    ensures var p := ReadField(old(input.bytes), tag, offset, old(States(stubs)));
      ok == p.Done? && (ok ==> input.bytes == p.rest && Learning(next, States(stubs)) == p.value)
  {
    hide DecodeFields, SkipField, Attach;
    next := offset;
    if tag.num == SERVICES_FIELD {
      ghost var bytes := input.bytes;
      var def;
      ok, def := input.Unmarshal(HelloSchema(), 0);
      if ok {
        DecodedDef(bytes, DefaultColumns(HelloSchema(), 0), MAX_NESTING);
        ok := HandleServiceDef(stubs, def.cols[0][0].bs, def.cols[1][0].n, def.cols[2][0].n, offset);
        next := offset + def.cols[3][0].n;
      }
    } else if tag.num == VERSION_FIELD {
      var version := ReadUint32(input.bytes);
      ok := version.Done? && version.value == PROTOCOL_VERSION;
      if ok {
        input.bytes := version.rest;
      }
    } else {
      ok := input.Skip(tag.wire, MAX_NESTING);
    }
  }

  /** `read_services_def`. */
  method ReadServicesDef(input: Input, stubs: seq<Stub>) returns (ok: bool)
    requires DistinctStubs(stubs)
    modifies input, stubs
    ensures var p := ReadHello(old(input.bytes), 1, old(States(stubs)));
      ok == p.Done? && (ok ==> input.bytes == p.rest && States(stubs) == p.value)
  {
    hide ReadField, States;
    ghost var goal := ReadHello(input.bytes, 1, States(stubs));
    var offset := 1;
    while true
      invariant ReadHello(input.bytes, offset, States(stubs)) == goal
      decreases |input.bytes|
    {
      var more, tag := input.ReadTag();
      if !more {
        return false;
      }
      if tag.wire.EndType? {
        return true;
      }
      more, offset := ReadHelloField(input, tag, offset, stubs);
      if !more {
        return false;
      }
    }
  }
}
