/** The list of types a service needs: a depth-first walk over message fields with sets of names already seen. */
module TypeTable {
  import opened Wire
  import opened Schemas

  /** A field's type; `Plain` carries the protobuf type code of a scalar. */
  datatype Target = Plain(code: nat) | ToMessage(m: nat) | ToEnum(e: nat)

  datatype FieldDesc = FieldDesc(name: seq<Byte>, number: nat, target: Target, repeated: bool)

  datatype MessageDesc = MessageDesc(name: seq<Byte>, fields: seq<FieldDesc>)

  datatype EnumDesc = EnumDesc(name: seq<Byte>, values: seq<(seq<Byte>, int)>)

  /** All messages and enums of a file, referred to by position. Messages may refer to each other in cycles. */
  datatype Graph = Graph(messages: seq<MessageDesc>, enums: seq<EnumDesc>)

  predicate GraphOk(g: Graph) {
    forall m, i :: 0 <= m < |g.messages| && 0 <= i < |g.messages[m].fields| ==> TargetOk(g, g.messages[m].fields[i].target)
  }

  predicate TargetOk(g: Graph, t: Target) {
    match t
    case Plain(_) => true
    case ToMessage(m) => m < |g.messages|
    case ToEnum(e) => e < |g.enums|
  }

  /** Message `m` has a field of type `t`. */
  predicate Mentions(g: Graph, m: nat, t: Target) {
    m < |g.messages| && exists i :: 0 <= i < |g.messages[m].fields| && g.messages[m].fields[i].target == t
  }

  lemma FieldMentions(g: Graph, m: nat, i: nat)
    requires m < |g.messages| && i < |g.messages[m].fields|
    ensures Mentions(g, m, g.messages[m].fields[i].target)
  {
  }

  /** A chain of fields leads from some root to message `m`. */
  ghost predicate IsPath(g: Graph, roots: seq<nat>, path: seq<nat>) {
    && path != [] && path[0] in roots
    && forall i :: 0 <= i < |path| - 1 ==> Mentions(g, path[i], ToMessage(path[i + 1]))
  }

  ghost predicate Reachable(g: Graph, roots: seq<nat>, m: nat) {
    exists path :: IsPath(g, roots, path) && path[|path| - 1] == m
  }

  lemma RootReachable(g: Graph, roots: seq<nat>, m: nat)
    requires m in roots
    ensures Reachable(g, roots, m)
  {
    assert IsPath(g, roots, [m]);
  }

  lemma NextReachable(g: Graph, roots: seq<nat>, m: nat, n: nat)
    requires Reachable(g, roots, m) && Mentions(g, m, ToMessage(n))
    ensures Reachable(g, roots, n)
  {
    var path :| IsPath(g, roots, path) && path[|path| - 1] == m;
    assert IsPath(g, roots, path + [n]);
    assert (path + [n])[|path|] == n;
  }

  predicate Distinct(s: seq<nat>) {
    forall i, j :: 0 <= i < j < |s| ==> s[i] != s[j]
  }

  /** The types of all fields of message `m` have been listed. */
  predicate Covered(g: Graph, messages: seq<nat>, enums: seq<nat>, m: nat) {
    && (forall n :: 0 <= n < |g.messages| && Mentions(g, m, ToMessage(n)) ==> n in messages)
    && (forall e :: 0 <= e < |g.enums| && Mentions(g, m, ToEnum(e)) ==> e in enums)
  }

  /** The type has been listed, if it is a message or an enum. */
  predicate Listed(messages: seq<nat>, enums: seq<nat>, t: Target) {
    match t
    case Plain(_) => true
    case ToMessage(n) => n in messages
    case ToEnum(e) => e in enums
  }

  lemma CoveredWhenListed(g: Graph, messages: seq<nat>, enums: seq<nat>, m: nat)
    requires m < |g.messages|
    requires forall k :: 0 <= k < |g.messages[m].fields| ==> Listed(messages, enums, g.messages[m].fields[k].target)
    ensures Covered(g, messages, enums, m)
  {
  }

  /** A set that holds the roots and is closed under fields holds everything reachable. */
  lemma {:induction false} ClosedHoldsReachable(g: Graph, roots: seq<nat>, messages: seq<nat>, enums: seq<nat>, path: seq<nat>)
    requires GraphOk(g) && (forall m :: m in roots ==> m in messages)
    requires forall m :: m in messages ==> Covered(g, messages, enums, m)
    requires IsPath(g, roots, path)
    ensures path[|path| - 1] in messages
    decreases |path|
  {
    if |path| > 1 {
      var before := path[..|path| - 1];
      assert IsPath(g, roots, before) by {
        forall i | 0 <= i < |before| - 1 ensures Mentions(g, before[i], ToMessage(before[i + 1])) {
          assert Mentions(g, path[i], ToMessage(path[i + 1]));
        }
      }
      ClosedHoldsReachable(g, roots, messages, enums, before);
      var m, n := path[|path| - 2], path[|path| - 1];
      assert Mentions(g, path[|path| - 2], ToMessage(path[|path| - 2 + 1]));
      assert TargetOk(g, ToMessage(n));
    }
  }

  /** `CollectMessageTypes` and `CollectServiceTypes`: lists in order of discovery, and sets of what has been listed. */
  class Collector {
    const g: Graph
    ghost const roots: seq<nat>
    var messages: seq<nat>
    var enums: seq<nat>
    var addedMessages: set<nat>
    var addedEnums: set<nat>

    /** Everything listed is listed once, is in range, and is needed by some root. */
    ghost predicate Valid()
      reads this
    {
      && GraphOk(g)
      && Distinct(messages) && Distinct(enums)
      && (forall m :: m in addedMessages <==> m in messages)
      && (forall e :: e in addedEnums <==> e in enums)
      && (forall m :: m in messages ==> m < |g.messages| && Reachable(g, roots, m))
      && (forall e :: e in enums ==> e < |g.enums| && exists m :: m in messages && Mentions(g, m, ToEnum(e)))
    }

    constructor (g: Graph, ghost roots: seq<nat>)
      requires GraphOk(g)
      ensures Valid() && this.g == g && this.roots == roots && messages == [] && enums == []
    {
      this.g, this.roots := g, roots;
      messages, enums, addedMessages, addedEnums := [], [], {}, {};
    }

    /** Messages not yet listed. */
    ghost function Left(): nat
      reads this
    {
      if |messages| <= |g.messages| then |g.messages| - |messages| else 0
    }

    /** Lists message `m` and what it leads to; what was listed stays, and every message listed anew has all its field
        types listed in the end. */
    method Collect(m: nat)
      requires Valid() && m < |g.messages| && Reachable(g, roots, m)
      modifies this
      ensures Valid() && m in messages
      ensures old(messages) <= messages && old(enums) <= enums
      ensures forall x :: x in messages && x !in old(messages) ==> Covered(g, messages, enums, x)
      decreases Left(), 0
    {
      hide Covered, Reachable, Mentions, Listed;
      if m in addedMessages {
        return;
      }
      NotAllListed(messages, |g.messages|, m);
      addedMessages := addedMessages + {m};
      messages := messages + [m];
      ghost var before := old(messages);
      for i := 0 to |g.messages[m].fields|
        invariant Valid() && m in messages && |messages| > |before|
        invariant before <= messages && old(enums) <= enums
        invariant forall x :: x in messages && x !in before && x != m ==> Covered(g, messages, enums, x)
        invariant forall k :: 0 <= k < i ==> Listed(messages, enums, g.messages[m].fields[k].target)
      {
        ghost var was, wasEnums := messages, enums;
        FieldMentions(g, m, i);
        CollectField(m, g.messages[m].fields[i].target);
        Grown(g, was, wasEnums, messages, enums);
      }
      CoveredWhenListed(g, messages, enums, m);
    }

    /** The loop body of `CollectMessageTypes`, for one field of message `m`. */
    method CollectField(ghost m: nat, t: Target)
      requires Valid() && m in messages && Mentions(g, m, t) && TargetOk(g, t)
      modifies this
      ensures Valid() && Listed(messages, enums, t)
      ensures old(messages) <= messages && old(enums) <= enums
      ensures forall x :: x in messages && x !in old(messages) ==> Covered(g, messages, enums, x)
      decreases Left(), 1
    {
      hide Covered, Reachable, Mentions;
      match t
      case Plain(_) =>
      case ToMessage(n) =>
        NextReachable(g, roots, m, n);
        Collect(n);
      case ToEnum(e) =>
        if e !in addedEnums {
          addedEnums := addedEnums + {e};
          enums := enums + [e];
        }
    }
  }

  /** Longer lists cover and list what shorter ones do. */
  lemma Grown(g: Graph, messages: seq<nat>, enums: seq<nat>, messages2: seq<nat>, enums2: seq<nat>)
    requires messages <= messages2 && enums <= enums2
    ensures forall x :: Covered(g, messages, enums, x) ==> Covered(g, messages2, enums2, x)
    ensures forall t :: Listed(messages, enums, t) ==> Listed(messages2, enums2, t)
    ensures forall x :: x in messages ==> x in messages2
  {
  }

  ghost function Below(n: nat): (r: set<nat>)
    ensures |r| == n && forall x: nat :: x in r <==> x < n
  {
    if n == 0 then {} else Below(n - 1) + {n - 1}
  }

  ghost function Elements(listed: seq<nat>): (r: set<nat>)
    requires Distinct(listed)
    ensures |r| == |listed| && forall x :: x in r <==> x in listed
  {
    if listed == [] then {}
    else
      var last := |listed| - 1;
      assert listed == listed[..last] + [listed[last]];
      Elements(listed[..last]) + {listed[last]}
  }

  lemma SubsetSize(a: set<nat>, b: set<nat>)
    requires a <= b
    ensures |a| <= |b|
  {
    assert b == a + (b - a);
  }

  lemma NotAllListed(listed: seq<nat>, n: nat, m: nat)
    requires Distinct(listed) && (forall x :: x in listed ==> x < n) && m < n && m !in listed
    ensures |listed| < n
  {
    SubsetSize(Elements(listed) + {m}, Below(n));
  }

  // ---- a service's types ----

  /** A method's request and response messages. */
  datatype Signature = Signature(request: nat, response: nat)

  predicate SignaturesOk(g: Graph, methods: seq<Signature>) {
    forall i :: 0 <= i < |methods| ==> methods[i].request < |g.messages| && methods[i].response < |g.messages|
  }

  /** Every request and response message. */
  function Roots(methods: seq<Signature>): seq<nat> {
    if methods == [] then [] else [methods[0].request, methods[0].response] + Roots(methods[1..])
  }

  lemma {:induction false} RootsOk(g: Graph, methods: seq<Signature>)
    requires SignaturesOk(g, methods)
    ensures forall m :: m in Roots(methods) ==> m < |g.messages|
  {
    if methods != [] {
      RootsOk(g, methods[1..]);
    }
  }

  /** The lists hold, without repetition, exactly the messages reachable from some method and the enums these mention.
      */
  ghost predicate Closure(g: Graph, methods: seq<Signature>, messages: seq<nat>, enums: seq<nat>) {
    && Distinct(messages) && Distinct(enums)
    && (forall m: nat :: m in messages <==> m < |g.messages| && Reachable(g, Roots(methods), m))
    && (forall e: nat :: e in enums <==> e < |g.enums| && exists m :: m in messages && Mentions(g, m, ToEnum(e)))
  }

  method CollectServiceTypes(g: Graph, methods: seq<Signature>) returns (messages: seq<nat>, enums: seq<nat>)
    requires GraphOk(g) && SignaturesOk(g, methods)
    ensures Closure(g, methods, messages, enums)
  {
    hide Covered, Mentions, Reachable;
    var c := new Collector(g, Roots(methods));
    RootsOk(g, methods);
    var left := methods;
    while left != []
      invariant c.Valid() && SignaturesOk(g, left)
      invariant forall x :: x in c.messages ==> Covered(g, c.messages, c.enums, x)
      invariant forall m :: m in Roots(left) ==> m in c.roots
      invariant forall m :: m in c.roots ==> m in c.messages || m in Roots(left)
    {
      CollectOne(c, left[0].request);
      CollectOne(c, left[0].response);
      left := left[1..];
    }
    messages, enums := c.messages, c.enums;
    EverythingReached(g, Roots(methods), messages, enums);
  }

  method CollectOne(c: Collector, m: nat)
    requires c.Valid() && m in c.roots && m < |c.g.messages|
    requires forall x :: x in c.messages ==> Covered(c.g, c.messages, c.enums, x)
    modifies c
    ensures c.Valid() && m in c.messages && old(c.messages) <= c.messages
    ensures forall x :: x in c.messages ==> Covered(c.g, c.messages, c.enums, x)
  {
    hide Covered, Mentions, Reachable;
    ghost var was, wasEnums := c.messages, c.enums;
    RootReachable(c.g, c.roots, m);
    c.Collect(m);
    Grown(c.g, was, wasEnums, c.messages, c.enums);
  }

  lemma EverythingReached(g: Graph, roots: seq<nat>, messages: seq<nat>, enums: seq<nat>)
    requires GraphOk(g) && (forall m :: m in roots ==> m in messages)
    requires forall m :: m in messages ==> Covered(g, messages, enums, m)
    ensures forall m: nat :: Reachable(g, roots, m) ==> m in messages
    ensures forall e: nat, m :: e < |g.enums| && m in messages && Mentions(g, m, ToEnum(e)) ==> e in enums
  {
    forall m: nat | Reachable(g, roots, m) ensures m in messages {
      var path :| IsPath(g, roots, path) && path[|path| - 1] == m;
      ClosedHoldsReachable(g, roots, messages, enums, path);
    }
  }
}
