/** Endpoint numbers: the server's dispatch table, a client stub and the command line tool each work them out in their
    own way from the services' method ids. */
module Endpoints {
  import opened Wire
  import opened Schemas

  /** `id` is the stable method id of the proto file. */
  datatype Method = Method(name: seq<Byte>, id: nat)

  /** `methods` as declared and as discovery lists them; `sorted` as the generator's `std::sort` leaves them. */
  datatype Service = Service(
    name: seq<Byte>, uuid: seq<Byte>, major: int, minor: int, methods: seq<Method>, sorted: seq<Method>)

  /** The generator refuses a service with a zero or repeated method id, and sorts by id. */
  predicate MethodsOk(s: Service) {
    && (forall i :: 0 <= i < |s.methods| ==> s.methods[i].id != 0)
    && (forall i, j :: 0 <= i < j < |s.methods| ==> s.methods[i].id != s.methods[j].id)
    && Increasing(s.sorted) && multiset(s.sorted) == multiset(s.methods)
  }

  // ---- sorting by id ----

  predicate Increasing(ms: seq<Method>) {
    forall i, j :: 0 <= i < j < |ms| ==> ms[i].id < ms[j].id
  }

  /** How many methods have a smaller id. */
  function CountLess(ms: seq<Method>, id: nat): nat {
    if ms == [] then 0 else (if ms[0].id < id then 1 else 0) + CountLess(ms[1..], id)
  }

  lemma {:induction false} CountLessConcat(a: seq<Method>, b: seq<Method>, id: nat)
    ensures CountLess(a + b, id) == CountLess(a, id) + CountLess(b, id)
  {
    if a == [] {
      assert a + b == b;
    } else {
      assert (a + b)[1..] == a[1..] + b;
      CountLessConcat(a[1..], b, id);
    }
  }

  lemma Removed(ms: seq<Method>, k: nat, id: nat)
    requires k < |ms|
    ensures multiset(ms[..k] + ms[k + 1..]) == multiset(ms) - multiset{ms[k]}
    ensures CountLess(ms, id) == CountLess(ms[..k] + ms[k + 1..], id) + if ms[k].id < id then 1 else 0
  {
    var later := [ms[k]] + ms[k + 1..];
    assert ms == ms[..k] + later && later[1..] == ms[k + 1..];
    CountLessConcat(ms[..k], ms[k + 1..], id);
    CountLessConcat(ms[..k], later, id);
  }

  lemma Somewhere(m: Method, ms: seq<Method>) returns (k: nat)
    requires m in multiset(ms)
    ensures k < |ms| && ms[k] == m
  {
    k :| 0 <= k < |ms| && ms[k] == m;
  }

  /** Counting does not depend on the order. */
  lemma {:induction false} CountLessPermuted(a: seq<Method>, b: seq<Method>, id: nat)
    requires multiset(a) == multiset(b)
    ensures CountLess(a, id) == CountLess(b, id)
    decreases |a|
  {
    hide CountLess;
    if a == [] {
      assert |b| == |multiset(b)| == 0;
      assert a == b;
    } else {
      var k := Somewhere(a[0], b);
      Removed(a, 0, id);
      Removed(b, k, id);
      CountLessPermuted(a[..0] + a[0 + 1..], b[..k] + b[k + 1..], id);
    }
  }

  /** In increasing order the number of smaller ids is the position. */
  lemma {:induction false} CountLessSorted(ms: seq<Method>, k: nat)
    requires Increasing(ms) && k < |ms|
    ensures CountLess(ms, ms[k].id) == k
  {
    if k == 0 {
      NoneLess(ms, ms[0].id);
    } else {
      CountLessSorted(ms[1..], k - 1);
    }
  }

  lemma {:induction false} NoneLess(ms: seq<Method>, id: nat)
    requires forall i :: 0 <= i < |ms| ==> ms[i].id >= id
    ensures CountLess(ms, id) == 0
  {
    if ms != [] {
      NoneLess(ms[1..], id);
    }
  }

  /** A method's place in the sorted list is the number of methods with smaller ids in the list as declared. */
  lemma PlaceIsCount(s: Service, k: nat)
    requires MethodsOk(s) && k < |s.methods|
    ensures |s.sorted| == |s.methods| && CountLess(s.methods, s.sorted[k].id) == k
    ensures forall j :: 0 <= j < |s.sorted| && j != k ==> (j < k <==> s.sorted[j].id < s.sorted[k].id)
  {
    SameLength(s);
    CountLessPermuted(s.methods, s.sorted, s.sorted[k].id);
    CountLessSorted(s.sorted, k);
  }

  // ---- the dispatch table ----

  /** One table entry: which service, and which of its methods. */
  datatype Slot = Slot(service: nat, m: Method)

  predicate ServicesOk(services: seq<Service>) {
    forall i :: 0 <= i < |services| ==> MethodsOk(services[i])
  }

  function Slots(i: nat, ms: seq<Method>): (r: seq<Slot>)
    ensures |r| == |ms| && forall k :: 0 <= k < |ms| ==> r[k] == Slot(i, ms[k])
  {
    seq(|ms|, k requires 0 <= k < |ms| => Slot(i, ms[k]))
  }

  /** The tables of services `i` and later, one after the other. */
  function Table(services: seq<Service>, i: nat): seq<Slot>
    requires i <= |services|
    decreases |services| - i
  {
    if i == |services| then [] else Slots(i, services[i].sorted) + Table(services, i + 1)
  }

  /** How many endpoints the services before `i` have. */
  function EndpointsBefore(services: seq<Service>, i: nat): nat
    requires i <= |services|
  {
    if i == 0 then 0 else EndpointsBefore(services, i - 1) + |services[i - 1].methods|
  }

  lemma SameLength(s: Service)
    requires MethodsOk(s)
    ensures |s.sorted| == |s.methods|
  {
    assert |s.sorted| == |multiset(s.sorted)|;
  }

  lemma {:induction false} TableAt(services: seq<Service>, from: nat, i: nat, k: nat)
    requires ServicesOk(services) && from <= i < |services| && k < |services[i].methods|
    ensures EndpointsBefore(services, from) <= EndpointsBefore(services, i)
    ensures |services[i].sorted| == |services[i].methods|
    ensures var at := EndpointsBefore(services, i) - EndpointsBefore(services, from) + k;
      at < |Table(services, from)| && Table(services, from)[at] == Slot(i, services[i].sorted[k])
    decreases i - from
  {
    hide Slots, MethodsOk;
    SameLength(services[from]);
    if from < i {
      TableAt(services, from + 1, i, k);
    }
  }

  lemma {:induction false} TableFrom(services: seq<Service>, from: nat, a: nat)
    requires from <= |services| && a < |Table(services, from)|
    ensures from <= Table(services, from)[a].service
    decreases |services| - from
  {
    var first := |services[from].sorted|;
    if a >= first {
      TableFrom(services, from + 1, a - first);
    }
  }

  /** No method has two entries. */
  lemma {:induction false} TableDistinct(services: seq<Service>, from: nat, a: nat, b: nat)
    requires ServicesOk(services) && from <= |services| && a < b < |Table(services, from)|
    ensures Table(services, from)[a] != Table(services, from)[b]
    decreases |services| - from
  {
    var first := |services[from].sorted|;
    if a >= first {
      TableDistinct(services, from + 1, a - first, b - first);
    } else if b >= first {
      TableFrom(services, from + 1, b - first);
    } else {
      assert MethodsOk(services[from]);
    }
  }

  /** Joining the services' tables into one array, as `concatenate_arrays` fills it. */
  method ConcatenateArrays(arrays: seq<seq<Slot>>) returns (result: array<Slot>)
    ensures fresh(result) && result[..] == Concat(arrays)
  {
    var total := 0;
    for i := 0 to |arrays|
      invariant total == |Concat(arrays[..i])|
    {
      ConcatSnoc(arrays[..i], arrays[i]);
      assert arrays[..i + 1] == arrays[..i] + [arrays[i]];
      total := total + |arrays[i]|;
    }
    assert arrays[..|arrays|] == arrays;
    result := new Slot[total](_ => Slot(0, Method([], 0)));
    var offset := 0;
    for i := 0 to |arrays|
      invariant offset == |Concat(arrays[..i])| && offset <= total
      invariant result[..offset] == Concat(arrays[..i])
    {
      ConcatSnoc(arrays[..i], arrays[i]);
      assert arrays[..i + 1] == arrays[..i] + [arrays[i]];
      ConcatPrefix(arrays, i + 1);
      ghost var done := result[..offset];
      ghost var start := offset;
      for k := 0 to |arrays[i]|
        invariant offset == start + k && start + |arrays[i]| <= total
        invariant result[..offset] == done + arrays[i][..k]
      {
        result[offset] := arrays[i][k];
        offset := offset + 1;
        assert result[..offset] == result[..offset - 1] + [arrays[i][k]];
        assert arrays[i][..k + 1] == arrays[i][..k] + [arrays[i][k]];
        Regroup(done, arrays[i][..k], [arrays[i][k]]);
      }
      assert arrays[i][..|arrays[i]|] == arrays[i];
    }
    assert result[..total] == result[..];
  }

  function Concat(arrays: seq<seq<Slot>>): seq<Slot> {
    if arrays == [] then [] else arrays[0] + Concat(arrays[1..])
  }

  lemma {:induction false} ConcatSnoc(arrays: seq<seq<Slot>>, last: seq<Slot>)
    ensures Concat(arrays + [last]) == Concat(arrays) + last
  {
    if arrays == [] {
      assert [] + [last] == [last] && [last][1..] == [];
      assert last + [] == [] + last;
    } else {
      assert (arrays + [last])[1..] == arrays[1..] + [last];
      ConcatSnoc(arrays[1..], last);
      Regroup(arrays[0], Concat(arrays[1..]), last);
    }
  }

  lemma {:induction false} ConcatPrefix(arrays: seq<seq<Slot>>, i: nat)
    requires i <= |arrays|
    ensures |Concat(arrays[..i])| <= |Concat(arrays)|
    decreases |arrays| - i
  {
    if i == |arrays| {
      assert arrays[..i] == arrays;
    } else {
      assert arrays[..i + 1] == arrays[..i] + [arrays[i]];
      ConcatSnoc(arrays[..i], arrays[i]);
      ConcatPrefix(arrays, i + 1);
    }
  }

  // ---- the command line tool ----

  /** The endpoint id `call` computes while scanning the discovered services: it gives up at the first service of the
      wanted name if that has no method of the wanted name. */
  method CallEndpoint(services: seq<Service>, service: seq<Byte>, name: seq<Byte>) returns (id: Option<nat>)
    ensures id == CliEndpoint(services, service, name, 0)
  {
    var endpoint := 1;
    for i := 0 to |services|
      invariant endpoint == 1 + EndpointsBefore(services, i)
      invariant CliEndpoint(services, service, name, i) == CliEndpoint(services, service, name, 0)
    {
      if services[i].name != service {
        endpoint := endpoint + |services[i].methods|;
      } else {
        var target := FindMethod(services[i].methods, name);
        if target == None {
          return None;
        }
        ghost var before := endpoint;
        var ms := services[i].methods;
        for k := 0 to |ms|
          invariant endpoint == before + CountLess(ms[..k], target.value.id)
        {
          assert ms[..k + 1] == ms[..k] + [ms[k]];
          CountLessConcat(ms[..k], [ms[k]], target.value.id);
          if ms[k].id < target.value.id {
            endpoint := endpoint + 1;
          }
        }
        assert ms[..|ms|] == ms;
        return Some(endpoint);
      }
    }
    return None;
  }

  function FindMethod(ms: seq<Method>, name: seq<Byte>): (r: Option<Method>)
    ensures r.Some? ==> r.value in ms && r.value.name == name
    ensures r.None? ==> forall i :: 0 <= i < |ms| ==> ms[i].name != name
  {
    if ms == [] then None
    else if ms[0].name == name then Some(ms[0])
    else
      var r := FindMethod(ms[1..], name);
      assert r.Some? ==> r.value in ms[1..] && r.value in ms;
      r
  }

  function CliEndpoint(services: seq<Service>, service: seq<Byte>, name: seq<Byte>, i: nat): Option<nat>
    requires i <= |services|
    decreases |services| - i
  {
    if i == |services| then None
    else if services[i].name != service then CliEndpoint(services, service, name, i + 1)
    else match FindMethod(services[i].methods, name)
         case None => None
         case Some(m) => Some(1 + EndpointsBefore(services, i) + CountLess(services[i].methods, m.id))
  }

  lemma {:induction false} CliFindsService(services: seq<Service>, i: nat, name: seq<Byte>, from: nat)
    requires from <= i < |services| && forall j :: from <= j < i ==> services[j].name != services[i].name
    ensures CliEndpoint(services, services[i].name, name, from) == CliEndpoint(services, services[i].name, name, i)
    decreases i - from
  {
    if from < i {
      CliFindsService(services, i, name, from + 1);
    }
  }

  /** The tool looks at names and method lists only. */
  lemma {:induction false} CliSame(a: seq<Service>, b: seq<Service>, service: seq<Byte>, name: seq<Byte>, i: nat)
    requires |a| == |b| && i <= |a|
    requires forall j :: 0 <= j < |a| ==> a[j].name == b[j].name && a[j].methods == b[j].methods
    ensures CliEndpoint(a, service, name, i) == CliEndpoint(b, service, name, i)
    decreases |a| - i
  {
    if i < |a| {
      SameBefore(a, b, i);
      CliSame(a, b, service, name, i + 1);
    }
  }

  lemma {:induction false} SameBefore(a: seq<Service>, b: seq<Service>, i: nat)
    requires |a| == |b| && i <= |a| && forall j :: 0 <= j < |a| ==> a[j].methods == b[j].methods
    ensures EndpointsBefore(a, i) == EndpointsBefore(b, i)
  {
    if i > 0 {
      SameBefore(a, b, i - 1);
    }
  }

  // ---- agreement ----

  /** Server, stub and tool agree. The stub of service `i` calls its method in place `k` of the sorted list as `k`
      plus the offset of the service; the dispatch table's entry for that endpoint id is that method, and the tool,
      asked for the method by name, comes to the same id. */
  lemma ThreeWayAgreement(services: seq<Service>, i: nat, k: nat)
    requires ServicesOk(services) && i < |services| && k < |services[i].methods|
    requires forall j :: 0 <= j < i ==> services[j].name != services[i].name
    ensures |services[i].sorted| == |services[i].methods|
    ensures forall j :: 0 <= j < k ==> services[i].sorted[j].id < services[i].sorted[k].id
    ensures var m, n := services[i].sorted[k], k + (1 + EndpointsBefore(services, i));
      && 1 <= n <= |Table(services, 0)| && Table(services, 0)[n - 1] == Slot(i, m)
      && (FindMethod(services[i].methods, m.name) == Some(m) ==> CliEndpoint(services, services[i].name, m.name, 0) == Some(n))
  {
    hide Table, Increasing, MethodsOk;
    TableAt(services, 0, i, k);
    PlaceIsCount(services[i], k);
    CliFindsService(services, i, services[i].sorted[k].name, 0);
  }
}
