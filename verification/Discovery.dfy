/** Discovery: the server describes its types by number, and the command line tool rebuilds a schema from the
    description. */
module Discovery {
  import opened Wire
  import opened Schemas
  import opened TypeTable

  const MESSAGE_CODE: nat := 11
  const ENUM_CODE: nat := 14
  const GROUP_CODE: nat := 10

  datatype TypeRef = Msg(m: nat) | Enm(e: nat)

  // ---- the server's side ----

  /** A service's type list: the collected messages, then the collected enums. */
  function TypeList(messages: seq<nat>, enums: seq<nat>): (r: seq<TypeRef>)
    ensures |r| == |messages| + |enums|
    ensures forall i :: 0 <= i < |messages| ==> r[i] == Msg(messages[i])
    ensures forall i :: |messages| <= i < |r| ==> r[i] == Enm(enums[i - |messages|])
  {
    seq(|messages| + |enums|, i requires 0 <= i < |messages| + |enums| =>
      if i < |messages| then Msg(messages[i]) else Enm(enums[i - |messages|]))
  }

  /** The one-based place of a type in the list, 0 for a type that is not in it. */
  function IdOf(types: seq<TypeRef>, t: TypeRef): (id: nat)
    ensures id <= |types| && (id == 0 <==> t !in types) && (id > 0 ==> types[id - 1] == t)
  {
    if types == [] then 0
    else if types[0] == t then 1
    else if IdOf(types[1..], t) == 0 then 0 else 1 + IdOf(types[1..], t)
  }

  predicate DistinctTypes(types: seq<TypeRef>) {
    forall i, j :: 0 <= i < j < |types| ==> types[i] != types[j]
  }

  lemma {:induction false} IdAt(types: seq<TypeRef>, i: nat)
    requires DistinctTypes(types) && i < |types|
    ensures IdOf(types, types[i]) == i + 1
  {
    if i > 0 {
      IdAt(types[1..], i - 1);
    }
  }

  /** `type_id`. */
  method TypeId(types: seq<TypeRef>, t: TypeRef) returns (id: nat)
    ensures id == IdOf(types, t)
  {
    for i := 0 to |types|
      invariant IdOf(types, t) == (if IdOf(types[i..], t) == 0 then 0 else i + IdOf(types[i..], t))
    {
      assert types[i..][1..] == types[i + 1..];
      if types[i] == t {
        return i + 1;
      }
    }
    return 0;
  }

  datatype DiscoveredField = DiscoveredField(name: seq<Byte>, number: nat, code: nat, typeId: nat, repeated: bool)

  datatype DiscoveredType = DiscoveredType(
    id: nat, code: nat, name: seq<Byte>, fields: seq<DiscoveredField>, values: seq<(seq<Byte>, int)>)

  /** Scalar type codes as protobuf numbers them. */
  predicate CodesOk(g: Graph) {
    forall m, i :: 0 <= m < |g.messages| && 0 <= i < |g.messages[m].fields| ==>
      ScalarTarget(g.messages[m].fields[i].target)
  }

  predicate ScalarTarget(t: Target) {
    t.Plain? ==> 1 <= t.code <= 18 && t.code !in [10, 11, 14]
  }

  function DescribeField(types: seq<TypeRef>, f: FieldDesc): DiscoveredField {
    match f.target
    case Plain(code) => DiscoveredField(f.name, f.number, code, 0, f.repeated)
    case ToMessage(m) => DiscoveredField(f.name, f.number, MESSAGE_CODE, IdOf(types, Msg(m)), f.repeated)
    case ToEnum(e) => DiscoveredField(f.name, f.number, ENUM_CODE, IdOf(types, Enm(e)), f.repeated)
  }

  function DescribeFields(types: seq<TypeRef>, fields: seq<FieldDesc>): (r: seq<DiscoveredField>)
    ensures |r| == |fields| && forall i :: 0 <= i < |fields| ==> r[i] == DescribeField(types, fields[i])
  {
    if fields == [] then [] else [DescribeField(types, fields[0])] + DescribeFields(types, fields[1..])
  }

  predicate InGraph(g: Graph, t: TypeRef) {
    match t
    case Msg(m) => m < |g.messages|
    case Enm(e) => e < |g.enums|
  }

  function DescribeType(g: Graph, types: seq<TypeRef>, i: nat): DiscoveredType
    requires i < |types| && InGraph(g, types[i])
  {
    match types[i]
    case Msg(m) =>
      DiscoveredType(i + 1, MESSAGE_CODE, g.messages[m].name, DescribeFields(types, g.messages[m].fields), [])
    case Enm(e) => DiscoveredType(i + 1, ENUM_CODE, g.enums[e].name, [], g.enums[e].values)
  }

  // ---- the tool's side ----

  /** The generated names "Message<id>" and "Enum<id>". */
  datatype TypeName = MessageName(id: nat) | EnumName(id: nat)

  datatype BuiltField = BuiltField(name: seq<Byte>, number: nat, code: nat, repeated: bool, ref: Option<TypeName>)

  datatype BuiltType =
    | BuiltMessage(name: TypeName, fields: seq<BuiltField>)
    | BuiltEnum(name: TypeName, values: seq<(seq<Byte>, int)>, alias: bool)

  datatype Built = Built(
    types: seq<BuiltType>, input: TypeName, output: TypeName, clientStreaming: bool, serverStreaming: bool)

  /** One of the first `n` types has this kind and id. */
  predicate Has(types: seq<DiscoveredType>, n: nat, code: nat, id: nat)
    requires n <= |types|
  {
    exists i :: 0 <= i < n && types[i].code == code && types[i].id == id
  }

  predicate HasId(types: seq<DiscoveredType>, code: nat, id: nat) {
    Has(types, |types|, code, id)
  }

  /** The first `n` types have non-zero, distinct ids and are messages or enums. */
  predicate TypesOk(types: seq<DiscoveredType>, n: nat)
    requires n <= |types|
  {
    && (forall i :: 0 <= i < n ==> types[i].id != 0 && (types[i].code == MESSAGE_CODE || types[i].code == ENUM_CODE))
    && (forall i, j :: 0 <= i < j < n ==> types[i].id != types[j].id)
  }

  predicate FieldOk(types: seq<DiscoveredType>, f: DiscoveredField) {
    && 1 <= f.code <= 18 && f.code != GROUP_CODE
    && (f.code == MESSAGE_CODE ==> HasId(types, MESSAGE_CODE, f.typeId))
    && (f.code == ENUM_CODE ==> HasId(types, ENUM_CODE, f.typeId))
  }

  predicate FieldsOk(types: seq<DiscoveredType>, fields: seq<DiscoveredField>) {
    forall i :: 0 <= i < |fields| ==> FieldOk(types, fields[i])
  }

  /** What a description must be for the tool to accept it: every reference leads to a listed type of the right kind. */
  predicate Buildable(types: seq<DiscoveredType>, request: nat, response: nat) {
    && request != 0 && response != 0 && types != [] && TypesOk(types, |types|)
    && (forall i :: 0 <= i < |types| && types[i].code == MESSAGE_CODE ==> FieldsOk(types, types[i].fields))
    && HasId(types, MESSAGE_CODE, request) && HasId(types, MESSAGE_CODE, response)
  }

  /** The condition spelled out: what makes the tool refuse a description. */
  lemma BuildableExactly(types: seq<DiscoveredType>, request: nat, response: nat)
    ensures !Buildable(types, request, response) <==>
      || request == 0 || response == 0 || types == []
      || (exists i :: 0 <= i < |types| && (types[i].id == 0 || types[i].code !in [11, 14]))
      || (exists i, j :: 0 <= i < j < |types| && types[i].id == types[j].id)
      || (exists i, k :: 0 <= i < |types| && types[i].code == 11 && 0 <= k < |types[i].fields|
                         && (types[i].fields[k].code !in [1, 2, 3, 4, 5, 6, 7, 8, 9, 11, 12, 13, 14, 15, 16, 17, 18]
                             || (types[i].fields[k].code in [11, 14]
                                 && forall j :: 0 <= j < |types| ==>
                                      types[j].code != types[i].fields[k].code || types[j].id != types[i].fields[k].typeId)))
      || (forall i :: 0 <= i < |types| ==> types[i].code != 11 || types[i].id != request)
      || (forall i :: 0 <= i < |types| ==> types[i].code != 11 || types[i].id != response)
  {
    forall i, k | 0 <= i < |types| && 0 <= k < |types[i].fields|
      ensures var f := types[i].fields[k];
        !FieldOk(types, f) <==>
        || f.code !in [1, 2, 3, 4, 5, 6, 7, 8, 9, 11, 12, 13, 14, 15, 16, 17, 18]
        || (f.code in [11, 14]
            && forall j :: 0 <= j < |types| ==> types[j].code != f.code || types[j].id != f.typeId)
    {
      FieldOkExactly(types, types[i].fields[k]);
    }
  }

  lemma FieldOkExactly(types: seq<DiscoveredType>, f: DiscoveredField)
    ensures !FieldOk(types, f) <==>
      || f.code !in [1, 2, 3, 4, 5, 6, 7, 8, 9, 11, 12, 13, 14, 15, 16, 17, 18]
      || (f.code in [11, 14] && forall j :: 0 <= j < |types| ==> types[j].code != f.code || types[j].id != f.typeId)
  {
  }

  function BuildField(f: DiscoveredField): BuiltField {
    BuiltField(f.name, f.number, f.code, f.repeated,
               if f.code == MESSAGE_CODE then Some(MessageName(f.typeId))
               else if f.code == ENUM_CODE then Some(EnumName(f.typeId)) else None)
  }

  function BuildFields(fields: seq<DiscoveredField>): (r: seq<BuiltField>)
    ensures |r| == |fields| && forall i :: 0 <= i < |fields| ==> r[i] == BuildField(fields[i])
  {
    if fields == [] then [] else [BuildField(fields[0])] + BuildFields(fields[1..])
  }

  predicate Uses(values: seq<(seq<Byte>, int)>, number: int) {
    exists i :: 0 <= i < |values| && values[i].1 == number
  }

  /** Two enum values have the same number. */
  predicate Repeats(values: seq<(seq<Byte>, int)>) {
    values != [] && (Uses(values[1..], values[0].1) || Repeats(values[1..]))
  }

  lemma {:induction false} RepeatsExactly(values: seq<(seq<Byte>, int)>)
    ensures Repeats(values) <==> exists j, k :: 0 <= j < k < |values| && values[j].1 == values[k].1
  {
    if values != [] {
      var later := values[1..];
      RepeatsExactly(later);
      if Uses(later, values[0].1) {
        var i :| 0 <= i < |later| && later[i].1 == values[0].1;
        assert values[0].1 == values[i + 1].1;
      }
      if j, k :| 0 <= j < k < |later| && later[j].1 == later[k].1 {
        assert values[j + 1].1 == values[k + 1].1;
      }
      if j, k :| 0 <= j < k < |values| && values[j].1 == values[k].1 {
        assert later[k - 1] == values[k];
        if j > 0 {
          assert later[j - 1] == values[j];
        }
      }
    }
  }

  function BuildType(t: DiscoveredType): BuiltType {
    if t.code == MESSAGE_CODE then BuiltMessage(MessageName(t.id), BuildFields(t.fields))
    else BuiltEnum(EnumName(t.id), t.values, Repeats(t.values))
  }

  function BuildTypes(types: seq<DiscoveredType>): (r: seq<BuiltType>)
    ensures |r| == |types| && forall i :: 0 <= i < |types| ==> r[i] == BuildType(types[i])
  {
    if types == [] then [] else [BuildType(types[0])] + BuildTypes(types[1..])
  }

  /** The file under construction: one entry for every type, found again by the type's id. */
  datatype File = File(entries: seq<BuiltType>, messageIndexes: map<nat, nat>, enumIndexes: map<nat, nat>)

  function AddName(file: File, t: DiscoveredType): File {
    if t.code == MESSAGE_CODE then
      File(file.entries + [BuiltMessage(MessageName(t.id), [])], file.messageIndexes[t.id := |file.entries|], file.enumIndexes)
    else
      File(file.entries + [BuiltEnum(EnumName(t.id), [], false)], file.messageIndexes, file.enumIndexes[t.id := |file.entries|])
  }

  /** Type `i` has its entry, under its own index. */
  predicate Placed(t: DiscoveredType, i: nat, file: File) {
    if t.code == MESSAGE_CODE then t.id in file.messageIndexes && file.messageIndexes[t.id] == i
    else t.id in file.enumIndexes && file.enumIndexes[t.id] == i
  }

  /** After the first pass over the first `n` types. */
  predicate Named(types: seq<DiscoveredType>, n: nat, file: File)
    requires n <= |types|
  {
    && |file.entries| == n
    && (forall i :: 0 <= i < n ==> Placed(types[i], i, file))
    && (forall id :: id in file.messageIndexes ==> Has(types, n, MESSAGE_CODE, id))
    && (forall id :: id in file.enumIndexes ==> Has(types, n, ENUM_CODE, id))
  }

  lemma NameOne(types: seq<DiscoveredType>, n: nat, file: File)
    requires n < |types| && TypesOk(types, n + 1) && Named(types, n, file)
    ensures Named(types, n + 1, AddName(file, types[n]))
  {
    var after := AddName(file, types[n]);
    forall id | id in after.messageIndexes ensures Has(types, n + 1, MESSAGE_CODE, id) {
      if id in file.messageIndexes {
        assert Has(types, n, MESSAGE_CODE, id);
      } else {
        assert types[n].id == id;
      }
    }
    forall id | id in after.enumIndexes ensures Has(types, n + 1, ENUM_CODE, id) {
      if id in file.enumIndexes {
        assert Has(types, n, ENUM_CODE, id);
      } else {
        assert types[n].id == id;
      }
    }
    forall i | 0 <= i < n + 1 ensures Placed(types[i], i, after) {
      if i < n {
        assert Placed(types[i], i, file);
        assert types[i].id != types[n].id;
      }
    }
  }

  /** The first pass names every type, and refuses a zero or repeated id and any other kind of type. */
  method NameTypes(types: seq<DiscoveredType>) returns (ok: bool, file: File)
    ensures ok <==> TypesOk(types, |types|)
    ensures ok ==> Named(types, |types|, file)
  {
    hide Named;
    file := File([], map[], map[]);
    var ids: set<nat> := {};
    assert Named(types, 0, file) by {
      NothingNamed(types);
    }
    for i := 0 to |types|
      invariant TypesOk(types, i) && Named(types, i, file)
      invariant forall k :: 0 <= k < i ==> types[k].id in ids
      invariant forall id :: id in ids ==> exists k :: 0 <= k < i && types[k].id == id
    {
      var t := types[i];
      if t.id == 0 || t.id in ids || (t.code != MESSAGE_CODE && t.code != ENUM_CODE) {
        ok := false;
        return;
      }
      ids := ids + {t.id};
      NameOne(types, i, file);
      file := AddName(file, t);
    }
    ok := true;
  }

  lemma NothingNamed(types: seq<DiscoveredType>)
    ensures Named(types, 0, File([], map[], map[]))
  {
  }

  /** The second pass fills in the fields of one message, and refuses a type code or a reference it does not know. */
  method FillMessage(types: seq<DiscoveredType>, t: DiscoveredType, file: File) returns (ok: bool, fields: seq<BuiltField>)
    requires TypesOk(types, |types|) && Named(types, |types|, file)
    ensures ok <==> FieldsOk(types, t.fields)
    ensures ok ==> fields == BuildFields(t.fields)
  {
    hide Named;
    fields := [];
    for i := 0 to |t.fields|
      invariant forall k :: 0 <= k < i ==> FieldOk(types, t.fields[k])
      invariant |fields| == i && forall k :: 0 <= k < i ==> fields[k] == BuildField(t.fields[k])
    {
      var f := t.fields[i];
      IndexedExactly(types, file, f.typeId);
      if f.code < 1 || f.code > 18 || f.code == GROUP_CODE
        || (f.code == MESSAGE_CODE && f.typeId !in file.messageIndexes)
        || (f.code == ENUM_CODE && f.typeId !in file.enumIndexes) {
        ok := false;
        return;
      }
      fields := fields + [BuildField(f)];
    }
    ok := true;
  }

  lemma IndexedExactly(types: seq<DiscoveredType>, file: File, id: nat)
    requires TypesOk(types, |types|) && Named(types, |types|, file)
    ensures id in file.messageIndexes <==> HasId(types, MESSAGE_CODE, id)
    ensures id in file.enumIndexes <==> HasId(types, ENUM_CODE, id)
  {
    if HasId(types, MESSAGE_CODE, id) {
      var i :| 0 <= i < |types| && types[i].code == MESSAGE_CODE && types[i].id == id;
      assert Placed(types[i], i, file);
    }
    if HasId(types, ENUM_CODE, id) {
      var i :| 0 <= i < |types| && types[i].code == ENUM_CODE && types[i].id == id;
      assert Placed(types[i], i, file);
    }
  }

  /** Whether two enum values have the same number. */
  method FindAlias(values: seq<(seq<Byte>, int)>) returns (alias: bool)
    ensures alias == Repeats(values)
  {
    var numbers: set<int> := {};
    alias := false;
    var left := values;
    while left != []
      invariant alias || Collides(numbers, left) <==> Repeats(values)
    {
      if left[0].1 in numbers {
        alias := true;
      }
      CollidesNext(numbers, left);
      numbers := numbers + {left[0].1};
      left := left[1..];
    }
  }

  /** One of the values has a number already seen, or two of them have the same one. */
  predicate Collides(numbers: set<int>, values: seq<(seq<Byte>, int)>) {
    Repeats(values) || exists i :: 0 <= i < |values| && values[i].1 in numbers
  }

  lemma CollidesNext(numbers: set<int>, values: seq<(seq<Byte>, int)>)
    requires values != []
    ensures Collides(numbers, values) <==>
            values[0].1 in numbers || Collides(numbers + {values[0].1}, values[1..])
  {
    hide Repeats;
    var later := values[1..];
    assert Repeats(values) <==> Uses(later, values[0].1) || Repeats(later) by {
      RepeatsFirst(values);
    }
    if i :| 0 <= i < |values| && values[i].1 in numbers {
      assert i > 0 ==> later[i - 1].1 in numbers + {values[0].1};
    }
    if i :| 0 <= i < |later| && later[i].1 in numbers + {values[0].1} {
      assert values[i + 1] == later[i];
    }
  }

  lemma RepeatsFirst(values: seq<(seq<Byte>, int)>)
    requires values != []
    ensures Repeats(values) <==> Uses(values[1..], values[0].1) || Repeats(values[1..])
  {
  }

  /** `build_method_descriptor_impl`: it accepts exactly the buildable descriptions, and builds them entry by entry. */
  method BuildMethodDescriptor(
      types: seq<DiscoveredType>, request: nat, response: nat, clientStreaming: bool, serverStreaming: bool)
    returns (built: Option<Built>)
    ensures built.Some? <==> Buildable(types, request, response)
    ensures built.Some? ==>
      built.value ==
      Built(BuildTypes(types), MessageName(request), MessageName(response), clientStreaming, serverStreaming)
  {
    hide Named, Has, BuildFields;
    if request == 0 || response == 0 || types == [] {
      return None;
    }
    var ok, file := NameTypes(types);
    if !ok {
      return None;
    }
    var entries := file.entries;
    assert |entries| == |types| by {
      EntryIndexes(types, file);
    }
    for i := 0 to |types|
      invariant |entries| == |types|
      invariant forall k :: 0 <= k < i ==> entries[k] == BuildType(types[k])
      invariant forall k :: 0 <= k < i && types[k].code == MESSAGE_CODE ==> FieldsOk(types, types[k].fields)
    {
      var t := types[i];
      EntryIndexes(types, file);
      assert Placed(t, i, file);
      if t.code == ENUM_CODE {
        var alias := FindAlias(t.values);
        entries := entries[file.enumIndexes[t.id] := BuiltEnum(EnumName(t.id), t.values, alias)];
      } else {
        var fields;
        ok, fields := FillMessage(types, t, file);
        if !ok {
          return None;
        }
        entries := entries[file.messageIndexes[t.id] := BuiltMessage(MessageName(t.id), fields)];
      }
    }
    IndexedExactly(types, file, request);
    IndexedExactly(types, file, response);
    if request !in file.messageIndexes || response !in file.messageIndexes {
      return None;
    }
    assert entries == BuildTypes(types);
    return Some(Built(entries, MessageName(request), MessageName(response), clientStreaming, serverStreaming));
  }

  lemma EntryIndexes(types: seq<DiscoveredType>, file: File)
    requires Named(types, |types|, file)
    ensures |file.entries| == |types| && forall i :: 0 <= i < |types| ==> Placed(types[i], i, file)
  {
  }

  // ---- from the server to the tool ----

  predicate TargetListed(types: seq<TypeRef>, t: Target) {
    match t
    case Plain(_) => true
    case ToMessage(m) => Msg(m) in types
    case ToEnum(e) => Enm(e) in types
  }

  /** The type is in the graph, and so are the types of a message's fields, which are listed too. */
  predicate TypeListed(g: Graph, types: seq<TypeRef>, t: TypeRef) {
    && InGraph(g, t)
    && (t.Msg? ==> forall k :: 0 <= k < |g.messages[t.m].fields| ==> TargetListed(types, g.messages[t.m].fields[k].target))
  }

  lemma TargetIsListed(g: Graph, methods: seq<Signature>, messages: seq<nat>, enums: seq<nat>, i: nat, k: nat)
    requires GraphOk(g) && Closure(g, methods, messages, enums) && i < |messages| && messages[i] < |g.messages|
    requires k < |g.messages[messages[i]].fields|
    ensures TargetListed(TypeList(messages, enums), g.messages[messages[i]].fields[k].target)
  {
    hide Reachable;
    var m, t := messages[i], g.messages[messages[i]].fields[k].target;
    var types := TypeList(messages, enums);
    assert TargetOk(g, t) && m in messages;
    FieldMentions(g, m, k);
    match t
    case Plain(_) =>
    case ToMessage(n) =>
      NextReachable(g, Roots(methods), m, n);
      var j :| 0 <= j < |messages| && messages[j] == n;
      assert types[j] == Msg(n);
    case ToEnum(e) =>
      assert e in enums;
      var j :| 0 <= j < |enums| && enums[j] == e;
      assert types[|messages| + j] == Enm(e);
  }

  lemma TypeIsListed(g: Graph, methods: seq<Signature>, messages: seq<nat>, enums: seq<nat>, i: nat)
    requires GraphOk(g) && Closure(g, methods, messages, enums) && i < |messages| + |enums|
    ensures TypeListed(g, TypeList(messages, enums), TypeList(messages, enums)[i])
  {
    hide Reachable, TargetListed, Mentions;
    if i < |messages| {
      var m := messages[i];
      assert m in messages;
      forall k | 0 <= k < |g.messages[m].fields|
        ensures TargetListed(TypeList(messages, enums), g.messages[m].fields[k].target)
      {
        TargetIsListed(g, methods, messages, enums, i, k);
      }
    } else {
      assert enums[i - |messages|] in enums;
    }
  }

  lemma ListedOnce(g: Graph, methods: seq<Signature>, messages: seq<nat>, enums: seq<nat>)
    requires Closure(g, methods, messages, enums)
    ensures DistinctTypes(TypeList(messages, enums))
  {
    hide Reachable, Mentions;
  }

  /** What discovery sends for a service. */
  function Describe(g: Graph, types: seq<TypeRef>): (r: seq<DiscoveredType>)
    requires forall i :: 0 <= i < |types| ==> InGraph(g, types[i])
    ensures |r| == |types| && forall i :: 0 <= i < |types| ==> r[i] == DescribeType(g, types, i)
  {
    seq(|types|, i requires 0 <= i < |types| => DescribeType(g, types, i))
  }

  /** The rebuilt type `b` is type `i` of the list: the same fields in order, with every reference leading to the
      entry of the type that the graph's field has. */
  predicate Mirrors(g: Graph, types: seq<TypeRef>, i: nat, b: BuiltType)
    requires i < |types| && InGraph(g, types[i])
  {
    match types[i]
    case Enm(e) =>
      && b.BuiltEnum? && b.name == EnumName(i + 1) && b.values == g.enums[e].values
      && (b.alias <==> exists j, k :: 0 <= j < k < |b.values| && b.values[j].1 == b.values[k].1)
    case Msg(m) =>
      && b.BuiltMessage? && b.name == MessageName(i + 1) && |b.fields| == |g.messages[m].fields|
      && forall k :: 0 <= k < |b.fields| ==> MirrorsField(types, g.messages[m].fields[k], b.fields[k])
  }

  predicate MirrorsField(types: seq<TypeRef>, f: FieldDesc, b: BuiltField) {
    && b.name == f.name && b.number == f.number && b.repeated == f.repeated
    && match f.target
       case Plain(code) => b.code == code && b.ref == None
       case ToMessage(m) =>
         b.code == 11 && b.ref.Some? && b.ref.value.MessageName? && Leads(types, b.ref.value.id, Msg(m))
       case ToEnum(e) =>
         b.code == 14 && b.ref.Some? && b.ref.value.EnumName? && Leads(types, b.ref.value.id, Enm(e))
  }

  /** Entry `id` of the list is `t`. */
  predicate Leads(types: seq<TypeRef>, id: nat, t: TypeRef) {
    1 <= id <= |types| && types[id - 1] == t
  }

  lemma FieldMirrored(types: seq<TypeRef>, f: FieldDesc)
    requires TargetListed(types, f.target) && ScalarTarget(f.target)
    ensures MirrorsField(types, f, BuildField(DescribeField(types, f)))
  {
  }

  lemma TypeMirrored(g: Graph, types: seq<TypeRef>, i: nat)
    requires i < |types| && TypeListed(g, types, types[i]) && CodesOk(g)
    ensures Mirrors(g, types, i, BuildType(DescribeType(g, types, i)))
  {
    if types[i].Msg? {
      var fields := g.messages[types[i].m].fields;
      forall k | 0 <= k < |fields|
        ensures MirrorsField(types, fields[k], BuildField(DescribeField(types, fields[k])))
      {
        FieldMirrored(types, fields[k]);
      }
    } else {
      RepeatsExactly(g.enums[types[i].e].values);
    }
  }

  lemma FieldBuildable(g: Graph, types: seq<TypeRef>, f: FieldDesc)
    requires (forall i :: 0 <= i < |types| ==> InGraph(g, types[i])) && TargetListed(types, f.target) && ScalarTarget(f.target)
    ensures FieldOk(Describe(g, types), DescribeField(types, f))
  {
    var d := Describe(g, types);
    match f.target
    case Plain(_) =>
    case ToMessage(m) => assert d[IdOf(types, Msg(m)) - 1].code == MESSAGE_CODE;
    case ToEnum(e) => assert d[IdOf(types, Enm(e)) - 1].code == ENUM_CODE;
  }

  /** Discovery is faithful: for every type graph, cyclic or not, every listed type has an id of its own, the tool
      accepts what the server sends for any method, and rebuilds a schema in which every entry mirrors the type it
      stands for. */
  lemma DiscoveryRebuildsTheSchema(
      g: Graph, methods: seq<Signature>, messages: seq<nat>, enums: seq<nat>, i: nat)
    requires GraphOk(g) && CodesOk(g) && SignaturesOk(g, methods) && Closure(g, methods, messages, enums) && i < |methods|
    ensures var types := TypeList(messages, enums);
      && (forall k :: 0 <= k < |types| ==> InGraph(g, types[k]) && IdOf(types, types[k]) == k + 1)
      && var request, response := IdOf(types, Msg(methods[i].request)), IdOf(types, Msg(methods[i].response));
      && Leads(types, request, Msg(methods[i].request)) && Leads(types, response, Msg(methods[i].response))
      && Buildable(Describe(g, types), request, response)
      && forall k :: 0 <= k < |types| ==> Mirrors(g, types, k, BuildTypes(Describe(g, types))[k])
  {
    hide Reachable, Mentions, Mirrors, BuildTypes, Buildable, Describe, Closure, TypeList, DistinctTypes, InGraph,
         IdOf, GraphOk, CodesOk, SignaturesOk, TypeListed, Leads;
    var types := TypeList(messages, enums);
    EveryTypeListed(g, methods, messages, enums);
    RootsListed(g, methods, messages, enums, i);
    DescriptionBuildable(g, types, methods[i].request, methods[i].response);
    EveryTypeMirrored(g, types);
    LeadsById(types, Msg(methods[i].request));
    LeadsById(types, Msg(methods[i].response));
  }

  lemma LeadsById(types: seq<TypeRef>, t: TypeRef)
    requires t in types
    ensures Leads(types, IdOf(types, t), t)
  {
  }

  lemma EveryTypeListed(g: Graph, methods: seq<Signature>, messages: seq<nat>, enums: seq<nat>)
    requires GraphOk(g) && Closure(g, methods, messages, enums)
    ensures var types := TypeList(messages, enums);
      forall k :: 0 <= k < |types| ==>
        TypeListed(g, types, types[k]) && InGraph(g, types[k]) && IdOf(types, types[k]) == k + 1
  {
    hide Closure, TypeList, DistinctTypes, IdOf, GraphOk, TargetListed;
    var types := TypeList(messages, enums);
    ListedOnce(g, methods, messages, enums);
    forall k | 0 <= k < |types|
      ensures TypeListed(g, types, types[k]) && InGraph(g, types[k]) && IdOf(types, types[k]) == k + 1
    {
      TypeIsListed(g, methods, messages, enums, k);
      IdAt(types, k);
    }
  }

  lemma EveryTypeMirrored(g: Graph, types: seq<TypeRef>)
    requires CodesOk(g) && forall k :: 0 <= k < |types| ==> TypeListed(g, types, types[k]) && InGraph(g, types[k])
    ensures forall k :: 0 <= k < |types| ==> Mirrors(g, types, k, BuildTypes(Describe(g, types))[k])
  {
    hide Mirrors, TypeListed, InGraph, CodesOk, BuildType, DescribeType;
    forall k | 0 <= k < |types| ensures Mirrors(g, types, k, BuildTypes(Describe(g, types))[k]) {
      TypeMirrored(g, types, k);
    }
  }

  /** The description names every type as the graph does and numbers it by its place. */
  lemma DescriptionNames(g: Graph, types: seq<TypeRef>, i: nat)
    requires i < |types| && forall k :: 0 <= k < |types| ==> InGraph(g, types[k])
    ensures var d := Describe(g, types)[i];
      && d.id == i + 1
      && (types[i].Msg? ==>
            d.code == 11 && d.name == g.messages[types[i].m].name && d.values == []
            && |d.fields| == |g.messages[types[i].m].fields|)
      && (types[i].Enm? ==>
            d.code == 14 && d.name == g.enums[types[i].e].name && d.values == g.enums[types[i].e].values && d.fields == [])
  {
  }

  lemma DescriptionBuildable(g: Graph, types: seq<TypeRef>, request: nat, response: nat)
    requires CodesOk(g) && types != []
    requires forall k :: 0 <= k < |types| ==> InGraph(g, types[k]) && TypeListed(g, types, types[k])
    requires Msg(request) in types && Msg(response) in types
    ensures Buildable(Describe(g, types), IdOf(types, Msg(request)), IdOf(types, Msg(response)))
  {
    hide DescribeType, FieldsOk, TypeListed, TypesOk, Has, InGraph;
    var d := Describe(g, types);
    forall k | 0 <= k < |types|
      ensures d[k].code == MESSAGE_CODE || d[k].code == ENUM_CODE
      ensures d[k].id == k + 1
      ensures d[k].code == MESSAGE_CODE ==> FieldsOk(d, d[k].fields)
    {
      TypeBuildable(g, types, k);
    }
    Indexed(d);
    MessageHasId(g, types, request);
    MessageHasId(g, types, response);
  }

  lemma MessageHasId(g: Graph, types: seq<TypeRef>, m: nat)
    requires (forall k :: 0 <= k < |types| ==> InGraph(g, types[k])) && Msg(m) in types
    ensures HasId(Describe(g, types), MESSAGE_CODE, IdOf(types, Msg(m)))
  {
    HasAt(Describe(g, types), IdOf(types, Msg(m)) - 1);
  }

  lemma Indexed(d: seq<DiscoveredType>)
    requires forall k :: 0 <= k < |d| ==> d[k].id == k + 1 && (d[k].code == MESSAGE_CODE || d[k].code == ENUM_CODE)
    ensures TypesOk(d, |d|)
  {
  }

  lemma HasAt(d: seq<DiscoveredType>, k: nat)
    requires k < |d|
    ensures HasId(d, d[k].code, d[k].id)
  {
  }

  lemma TypeBuildable(g: Graph, types: seq<TypeRef>, k: nat)
    requires (forall i :: 0 <= i < |types| ==> InGraph(g, types[i])) && CodesOk(g)
    requires k < |types| && TypeListed(g, types, types[k])
    ensures var d := Describe(g, types);
      && d[k].id == k + 1 && (d[k].code == if types[k].Msg? then MESSAGE_CODE else ENUM_CODE)
      && (d[k].code == MESSAGE_CODE ==> FieldsOk(d, d[k].fields))
  {
    if types[k].Msg? {
      var fields := g.messages[types[k].m].fields;
      forall j | 0 <= j < |fields| ensures FieldOk(Describe(g, types), DescribeField(types, fields[j])) {
        FieldBuildable(g, types, fields[j]);
      }
    }
  }

  lemma RootsListed(g: Graph, methods: seq<Signature>, messages: seq<nat>, enums: seq<nat>, i: nat)
    requires SignaturesOk(g, methods) && Closure(g, methods, messages, enums) && i < |methods|
    ensures Msg(methods[i].request) in TypeList(messages, enums) && Msg(methods[i].response) in TypeList(messages, enums)
  {
    hide Reachable, Mentions;
    RootAt(methods, i);
    forall m: nat | m in Roots(methods) && m < |g.messages| ensures Msg(m) in TypeList(messages, enums) {
      RootReachable(g, Roots(methods), m);
      assert m in messages;
      var j :| 0 <= j < |messages| && messages[j] == m;
      assert TypeList(messages, enums)[j] == Msg(m);
    }
  }

  lemma {:induction false} RootAt(methods: seq<Signature>, i: nat)
    requires i < |methods|
    ensures methods[i].request in Roots(methods) && methods[i].response in Roots(methods)
  {
    if i > 0 {
      RootAt(methods[1..], i - 1);
    }
  }
}
