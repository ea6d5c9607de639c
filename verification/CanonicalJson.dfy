/** Canonical JSON of an object graph that may share nodes and may contain cycles. */
module CanonicalJson {
  import opened Sorting
  import opened JsonTree
  import JsonReader
  import QueryBytes

  type Id = nat

  /** A value slot. `Exotic` stands for bigint, function, symbol, Date, buffers and class instances. */
  datatype Val =
    | Null | Str(s: string) | Bool(b: bool) | Num(n: Numeral) | NegZero | NonFinite | Undefined | Exotic | Ref(id: Id)

  /** An array, or a plain object with its own keys in insertion order. */
  datatype Node = Arr(items: seq<Val>) | Obj(keys: seq<string>, vals: map<string, Val>)

  type Graph = map<Id, Node>

  datatype Fault = Circular | Unsupported | TooLarge
  datatype Result<+T> = Ok(value: T) | Err(fault: Fault)

  /** value[k] */
  function Get(vals: map<string, Val>, k: string): Val {
    if k in vals then vals[k] else Undefined
  }

  /** out[k] = t on a fresh plain object: assigning __proto__ creates no own key. */
  function Store(out: seq<Field>, k: string, t: Tree): seq<Field> {
    if k == "__proto__" then out else Put(out, k, t)
  }

  // ---------------------------------------------------------------- the algorithm

  function Canon(g: Graph, v: Val, stack: set<Id>): Result<Tree>
    decreases |g.Keys - stack|, 0
  {
    match v
    case Null => Ok(TNull)
    case Str(s) => Ok(TStr(s))
    case Bool(b) => Ok(TBool(b))
    case Num(n) => Ok(TNum(n))
    case NegZero => Ok(TNum("0"))
    case Ref(id) =>
      if id !in g then Err(Unsupported)
      else if id in stack then Err(Circular)
      else
        Smaller(g, stack, id);
        (match g[id]
         case Arr(items) =>
           var r := CanonItems(g, items, stack + {id});
           if r.Ok? then Ok(TArr(r.value)) else Err(r.fault)
         case Obj(keys, vals) =>
           var r := CanonFields(g, vals, SortStrings(keys), stack + {id});
           if r.Ok? then Ok(TObj(r.value)) else Err(r.fault))
    case _ => Err(Unsupported)
  }

  function CanonItems(g: Graph, items: seq<Val>, stack: set<Id>): Result<seq<Tree>>
    decreases |g.Keys - stack|, 1 + |items|
  {
    if items == [] then Ok([])
    else
      var n := |items| - 1;
      var front := CanonItems(g, items[..n], stack);
      if front.Err? then front
      else
        var last := Canon(g, items[n], stack);
        if last.Err? then Err(last.fault) else Ok(front.value + [last.value])
  }

  /** Keys are visited in the given order; undefined values are left out. */
  function CanonFields(g: Graph, vals: map<string, Val>, keys: seq<string>, stack: set<Id>): Result<seq<Field>>
    decreases |g.Keys - stack|, 1 + |keys|
  {
    if keys == [] then Ok([])
    else
      var n := |keys| - 1;
      var front := CanonFields(g, vals, keys[..n], stack);
      if front.Err? || Get(vals, keys[n]).Undefined? then front
      else
        var last := Canon(g, Get(vals, keys[n]), stack);
        if last.Err? then Err(last.fault) else Ok(Store(front.value, keys[n], last.value))
  }

  /** Entering a node leaves fewer nodes off the stack. */
  lemma {:induction false} Smaller(g: Graph, stack: set<Id>, id: Id)
    requires id in g && id !in stack
    ensures |g.Keys - (stack + {id})| == |g.Keys - stack| - 1
  {
    assert g.Keys - (stack + {id}) == (g.Keys - stack) - {id};
  }

  /** The recursive walk with its explicit stack; the stack is put back on every way out. */
  class Canonicalizer {
    const g: Graph
    var stack: set<Id>

    constructor (g: Graph)
      ensures this.g == g && stack == {}
    {
      this.g, stack := g, {};
    }

    method Canonicalize(v: Val) returns (r: Result<Tree>)
      modifies this
      ensures r == Canon(g, v, old(stack))
      ensures stack == old(stack)
      decreases |g.Keys - stack|, 0
    {
      match v {
        case Null => return Ok(TNull);
        case Str(s) => return Ok(TStr(s));
        case Bool(b) => return Ok(TBool(b));
        case Num(x) => return Ok(TNum(x));
        case NegZero => return Ok(TNum("0"));
        case Ref(_) =>
        case _ => return Err(Unsupported);
      }
      if v.id !in g { return Err(Unsupported); }
      if v.id in stack { return Err(Circular); }
      Smaller(g, stack, v.id);
      ghost var entered := stack;
      stack := stack + {v.id};
      match g[v.id] {
        case Arr(items) =>
          var out := WalkItems(items);
          r := if out.Ok? then Ok(TArr(out.value)) else Err(out.fault);
        case Obj(keys, vals) =>
          var out := WalkFields(vals, SortStrings(keys));
          r := if out.Ok? then Ok(TObj(out.value)) else Err(out.fault);
      }
      stack := stack - {v.id};
      assert stack == entered;
    }

    method WalkItems(items: seq<Val>) returns (r: Result<seq<Tree>>)
      modifies this
      ensures r == CanonItems(g, items, old(stack)) && stack == old(stack)
      decreases |g.Keys - stack|, 1
    {
      var out: seq<Tree> := [];
      var i := 0;
      while i < |items|
        invariant i <= |items| && stack == old(stack)
        invariant CanonItems(g, items[..i], old(stack)) == Ok(out)
      {
        assert items[..i + 1][..i] == items[..i];
        var t := Canonicalize(items[i]);
        if t.Err? {
          ItemsFail(g, items, i + 1, stack);
          return Err(t.fault);
        }
        out := out + [t.value];
        i := i + 1;
      }
      assert items[..i] == items;
      r := Ok(out);
    }

    method WalkFields(vals: map<string, Val>, keys: seq<string>) returns (r: Result<seq<Field>>)
      modifies this
      ensures r == CanonFields(g, vals, keys, old(stack)) && stack == old(stack)
      decreases |g.Keys - stack|, 1
    {
      hide Canon, CanonFields;
      var out: seq<Field> := [];
      var i := 0;
      FieldsStep(g, vals, keys, 0, stack);
      while i < |keys|
        invariant i <= |keys| && stack == old(stack)
        invariant CanonFields(g, vals, keys[..i], old(stack)) == Ok(out)
      {
        FieldsStep(g, vals, keys, i, stack);
        var v := Get(vals, keys[i]);
        if !v.Undefined? {
          var t := Canonicalize(v);
          if t.Err? {
            FieldsFail(g, vals, keys, i + 1, stack);
            return Err(t.fault);
          }
          out := Store(out, keys[i], t.value);
        }
        i := i + 1;
      }
      assert keys[..i] == keys;
      r := Ok(out);
    }
  }

  lemma {:induction false} ItemsFail(g: Graph, items: seq<Val>, i: nat, stack: set<Id>)
    requires i <= |items| && CanonItems(g, items[..i], stack).Err?
    ensures CanonItems(g, items, stack) == CanonItems(g, items[..i], stack)
    decreases |items|
  {
    if i == |items| {
      assert items[..i] == items;
    } else {
      assert items[..|items| - 1][..i] == items[..i];
      ItemsFail(g, items[..|items| - 1], i, stack);
    }
  }

  /** One more key. */
  lemma {:induction false} FieldsStep(g: Graph, vals: map<string, Val>, keys: seq<string>, i: nat, stack: set<Id>)
    requires i <= |keys|
    ensures CanonFields(g, vals, keys[..0], stack) == Ok([])
    ensures i < |keys| ==>
      var front, v := CanonFields(g, vals, keys[..i], stack), Get(vals, keys[i]);
      CanonFields(g, vals, keys[..i + 1], stack) ==
        if front.Err? || v.Undefined? then front
        else if Canon(g, v, stack).Err? then Err(Canon(g, v, stack).fault)
        else Ok(Store(front.value, keys[i], Canon(g, v, stack).value))
  {
    if i < |keys| { assert keys[..i + 1][..i] == keys[..i]; }
    hide Canon;
  }

  lemma {:induction false} FieldsFail(g: Graph, vals: map<string, Val>, keys: seq<string>, i: nat, stack: set<Id>)
    requires i <= |keys| && CanonFields(g, vals, keys[..i], stack).Err?
    ensures CanonFields(g, vals, keys, stack) == CanonFields(g, vals, keys[..i], stack)
    decreases |keys|
  {
    if i == |keys| {
      assert keys[..i] == keys;
    } else {
      assert keys[..|keys| - 1][..i] == keys[..i];
      FieldsFail(g, vals, keys[..|keys| - 1], i, stack);
    }
  }

  // ---------------------------------------------------------------- children and paths

  ghost predicate Child(n: Node, c: Val) {
    match n
    case Arr(items) => c in items
    case Obj(keys, vals) => !c.Undefined? && exists k :: k in keys && Get(vals, k) == c
  }

  /** A walk through the graph that starts at the node `v` refers to. */
  ghost predicate RootedPath(g: Graph, v: Val, p: seq<Id>) {
    && |p| >= 1 && v == Ref(p[0])
    && (forall i :: 0 <= i < |p| ==> p[i] in g)
    && (forall i :: 0 <= i < |p| - 1 ==> Child(g[p[i]], Ref(p[i + 1])))
  }

  ghost predicate Simple(p: seq<Id>) {
    forall i, j :: 0 <= i < j < |p| ==> p[i] != p[j]
  }

  /** A JSON primitive or a reference to a plain object or array. */
  predicate Good(g: Graph, c: Val) {
    !c.NonFinite? && !c.Undefined? && !c.Exotic? && (c.Ref? ==> c.id in g)
  }

  ghost predicate AllGood(g: Graph, v: Val) {
    && Good(g, v)
    && forall p, c :: RootedPath(g, v, p) && Child(g[p[|p| - 1]], c) ==> Good(g, c)
  }

  lemma {:induction false} ItemsResult(g: Graph, items: seq<Val>, stack: set<Id>)
    ensures var r := CanonItems(g, items, stack);
            && (r.Ok? <==> forall i :: 0 <= i < |items| ==> Canon(g, items[i], stack).Ok?)
            && (r.Ok? ==> |r.value| == |items| && forall i :: 0 <= i < |items| ==> Canon(g, items[i], stack) == Ok(r.value[i]))
            && (r.Err? ==> exists i :: 0 <= i < |items| && Canon(g, items[i], stack) == Err(r.fault))
    decreases |items|
  {
    hide Canon;
    if items != [] {
      var n := |items| - 1;
      ItemsResult(g, items[..n], stack);
      assert forall i :: 0 <= i < n ==> items[..n][i] == items[i];
      var r, front := CanonItems(g, items, stack), CanonItems(g, items[..n], stack);
      if front.Err? {
        var i :| 0 <= i < n && Canon(g, items[..n][i], stack) == Err(front.fault);
        assert Canon(g, items[i], stack).Err?;
      }
    }
  }

  /** The keys that survive: defined ones, except __proto__. */
  function Kept(vals: map<string, Val>, keys: seq<string>): set<string> {
    set k | k in keys && !Get(vals, k).Undefined? && k != "__proto__"
  }

  lemma {:induction false} FieldsResult(g: Graph, vals: map<string, Val>, keys: seq<string>, stack: set<Id>)
    ensures var r := CanonFields(g, vals, keys, stack);
            && (r.Ok? <==> forall k :: k in keys && !Get(vals, k).Undefined? ==> Canon(g, Get(vals, k), stack).Ok?)
            && (r.Ok? ==> forall k :: Has(r.value, k) <==> k in Kept(vals, keys))
            && (r.Ok? ==> forall f :: f in r.value ==> Canon(g, Get(vals, f.key), stack) == Ok(f.value))
            && (r.Err? ==> exists k :: k in keys && !Get(vals, k).Undefined? && Canon(g, Get(vals, k), stack) == Err(r.fault))
    decreases |keys|
  {
    hide Canon, Put;
    if keys != [] {
      var n := |keys| - 1;
      FieldsResult(g, vals, keys[..n], stack);
      assert keys == keys[..n] + [keys[n]];
      var front, r, last := CanonFields(g, vals, keys[..n], stack), CanonFields(g, vals, keys, stack), Canon(g, Get(vals, keys[n]), stack);
      if r.Ok? && !Get(vals, keys[n]).Undefined? && keys[n] != "__proto__" {
        forall k ensures Has(r.value, k) <==> k in Kept(vals, keys) { PutHas(front.value, keys[n], last.value, k); }
        forall f | f in r.value ensures Canon(g, Get(vals, f.key), stack) == Ok(f.value) { PutMembers(front.value, keys[n], last.value, f); }
      }
    }
  }

  /** Keys visited in sorted order come out in enumeration order. */
  lemma {:induction false} FieldsInOrder(g: Graph, vals: map<string, Val>, keys: seq<string>, stack: set<Id>)
    requires Ordered(keys, StrLeq) && CanonFields(g, vals, keys, stack).Ok?
    ensures InOrder(CanonFields(g, vals, keys, stack).value)
    decreases |keys|
  {
    hide Canon, Put, InOrder;
    if keys == [] {
      NothingIsInOrder();
    } else {
      var n := |keys| - 1;
      FieldsInOrder(g, vals, keys[..n], stack);
      FieldsResult(g, vals, keys[..n], stack);
      var front := CanonFields(g, vals, keys[..n], stack).value;
      forall i | 0 <= i < |front| ensures StrLeq(front[i].key, keys[n]) {
        assert Has(front, front[i].key);
        var j :| 0 <= j < n && keys[j] == front[i].key;
      }
      if !Get(vals, keys[n]).Undefined? { PutKeepsOrder(front, keys[n], Canon(g, Get(vals, keys[n]), stack).value); }
    }
  }

  lemma {:induction false} NothingIsInOrder()
    ensures InOrder([])
  {
  }

  /** A node off the stack is accepted exactly when all its children are. */
  lemma {:induction false} NodeResult(g: Graph, id: Id, stack: set<Id>)
    requires id in g && id !in stack
    ensures Canon(g, Ref(id), stack).Ok? <==> forall c :: Child(g[id], c) ==> Canon(g, c, stack + {id}).Ok?
    ensures Canon(g, Ref(id), stack).Err? ==> exists c :: Child(g[id], c) && Canon(g, c, stack + {id}) == Canon(g, Ref(id), stack)
  {
    var inner := stack + {id};
    match g[id]
    case Arr(items) => ItemsResult(g, items, inner); ArrayChildren(g, items, inner, id, stack);
    case Obj(keys, vals) =>
      FieldsResult(g, vals, SortStrings(keys), inner);
      forall k ensures k in SortStrings(keys) <==> k in keys { SortMembers(keys, StrLeq, k); }
      ObjectChildren(g, keys, vals, inner, id, stack);
  }

  lemma {:induction false} ArrayChildren(g: Graph, items: seq<Val>, inner: set<Id>, id: Id, stack: set<Id>)
    requires id in g && id !in stack && g[id] == Arr(items) && inner == stack + {id}
    requires var r := CanonItems(g, items, inner);
             && (r.Ok? <==> forall i :: 0 <= i < |items| ==> Canon(g, items[i], inner).Ok?)
             && (r.Err? ==> exists i :: 0 <= i < |items| && Canon(g, items[i], inner) == Err(r.fault))
    ensures Canon(g, Ref(id), stack).Ok? <==> forall c :: Child(g[id], c) ==> Canon(g, c, inner).Ok?
    ensures Canon(g, Ref(id), stack).Err? ==> exists c :: Child(g[id], c) && Canon(g, c, inner) == Canon(g, Ref(id), stack)
  {
    var r := CanonItems(g, items, inner);
    assert Canon(g, Ref(id), stack) == if r.Ok? then Ok(TArr(r.value)) else Err(r.fault);
    hide Canon, CanonItems;
    assert forall c :: Child(g[id], c) <==> c in items;
  }

  lemma {:induction false} ObjectChildren(g: Graph, keys: seq<string>, vals: map<string, Val>, inner: set<Id>, id: Id, stack: set<Id>)
    requires id in g && id !in stack && g[id] == Obj(keys, vals) && inner == stack + {id}
    requires forall k :: k in SortStrings(keys) <==> k in keys
    requires var r := CanonFields(g, vals, SortStrings(keys), inner);
             && (r.Ok? <==> forall k :: k in SortStrings(keys) && !Get(vals, k).Undefined? ==> Canon(g, Get(vals, k), inner).Ok?)
             && (r.Err? ==> exists k :: k in SortStrings(keys) && !Get(vals, k).Undefined? && Canon(g, Get(vals, k), inner) == Err(r.fault))
    ensures Canon(g, Ref(id), stack).Ok? <==> forall c :: Child(g[id], c) ==> Canon(g, c, inner).Ok?
    ensures Canon(g, Ref(id), stack).Err? ==> exists c :: Child(g[id], c) && Canon(g, c, inner) == Canon(g, Ref(id), stack)
  {
    var r := CanonFields(g, vals, SortStrings(keys), inner);
    assert Canon(g, Ref(id), stack) == if r.Ok? then Ok(TObj(r.value)) else Err(r.fault);
    hide Canon, CanonFields, SortStrings;
    assert forall k :: k in keys && !Get(vals, k).Undefined? ==> Child(g[id], Get(vals, k));
  }

  // ---------------------------------------------------------------- cycles

  /** What was accepted has only simple walks, and they keep off the stack. */
  lemma {:induction false} AcceptedWalksAreSimple(g: Graph, v: Val, stack: set<Id>, p: seq<Id>)
    requires Canon(g, v, stack).Ok? && RootedPath(g, v, p)
    ensures Simple(p) && forall i :: 0 <= i < |p| ==> p[i] !in stack
    decreases |p|
  {
    var id := p[0];
    assert id in g && id !in stack;
    if |p| > 1 {
      NodeResult(g, id, stack);
      hide Canon;
      var rest := p[1..];
      assert Child(g[id], Ref(rest[0])) by { assert Child(g[p[0]], Ref(p[0 + 1])); }
      RestOfPath(g, p, v);
      AcceptedWalksAreSimple(g, Ref(rest[0]), stack + {id}, rest);
      forall i, j | 0 <= i < j < |p| ensures p[i] != p[j] {
        assert p[j] == rest[j - 1];
        if i > 0 { assert p[i] == rest[i - 1]; }
      }
      forall i | 0 <= i < |p| ensures p[i] !in stack { if i > 0 { assert p[i] == rest[i - 1]; } }
    }
  }

  lemma {:induction false} RestOfPath(g: Graph, p: seq<Id>, v: Val)
    requires RootedPath(g, v, p) && |p| > 1
    ensures RootedPath(g, Ref(p[1]), p[1..])
  {
    var rest := p[1..];
    forall i | 0 <= i < |rest| - 1 ensures Child(g[rest[i]], Ref(rest[i + 1])) {
      assert Child(g[p[i + 1]], Ref(p[i + 1 + 1]));
    }
  }

  lemma {:induction false} LongerPath(g: Graph, id: Id, p: seq<Id>)
    requires id in g && |p| >= 1 && RootedPath(g, Ref(p[0]), p) && Child(g[id], Ref(p[0]))
    ensures RootedPath(g, Ref(id), [id] + p)
  {
    var q := [id] + p;
    forall i | 0 <= i < |q| - 1 ensures Child(g[q[i]], Ref(q[i + 1])) {
      if i > 0 { assert Child(g[p[i - 1]], Ref(p[i - 1 + 1])); }
    }
  }

  lemma {:induction false} AcceptedValuesAreGood(g: Graph, v: Val, stack: set<Id>, p: seq<Id>, c: Val)
    requires Canon(g, v, stack).Ok? && RootedPath(g, v, p) && Child(g[p[|p| - 1]], c)
    ensures Good(g, c)
    decreases |p|
  {
    var id := p[0];
    NodeResult(g, id, stack);
    if |p| == 1 {
      assert Canon(g, c, stack + {id}).Ok?;
    } else {
      hide Canon;
      assert Child(g[p[0]], Ref(p[0 + 1]));
      RestOfPath(g, p, v);
      AcceptedValuesAreGood(g, Ref(p[1]), stack + {id}, p[1..], c);
    }
  }

  /** Children inherit the hypotheses of the value they hang from. */
  lemma {:induction false} GoodChild(g: Graph, id: Id, c: Val)
    requires id in g && AllGood(g, Ref(id)) && Child(g[id], c)
    ensures AllGood(g, c)
  {
    assert RootedPath(g, Ref(id), [id]);
    assert [id][|[id]| - 1] == id;
    forall p, d | RootedPath(g, c, p) && Child(g[p[|p| - 1]], d) ensures Good(g, d) {
      LongerPath(g, id, p);
      assert ([id] + p)[|[id] + p| - 1] == p[|p| - 1];
    }
  }

  ghost predicate WalksAvoid(g: Graph, v: Val, stack: set<Id>) {
    forall p :: RootedPath(g, v, p) ==> Simple(p) && forall i :: 0 <= i < |p| ==> p[i] !in stack
  }

  lemma {:induction false} AvoidingChild(g: Graph, id: Id, c: Val, stack: set<Id>)
    requires id in g && WalksAvoid(g, Ref(id), stack) && Child(g[id], c)
    ensures WalksAvoid(g, c, stack + {id})
  {
    forall p | RootedPath(g, c, p)
      ensures Simple(p) && forall i :: 0 <= i < |p| ==> p[i] !in stack + {id}
    {
      LongerPath(g, id, p);
      var q := [id] + p;
      assert forall i :: 0 <= i < |p| ==> q[i + 1] == p[i];
      forall i | 0 <= i < |p| ensures p[i] !in stack + {id} { assert q[0] != q[i + 1]; }
      forall i, j | 0 <= i < j < |p| ensures p[i] != p[j] { assert q[i + 1] != q[j + 1]; }
    }
  }

  lemma {:induction false} AvoidingIsAccepted(g: Graph, v: Val, stack: set<Id>)
    requires AllGood(g, v) && WalksAvoid(g, v, stack)
    ensures Canon(g, v, stack).Ok?
    decreases |g.Keys - stack|
  {
    if v.Ref? {
      var id := v.id;
      assert RootedPath(g, v, [id]);
      assert [id][0] !in stack;
      NodeResult(g, id, stack);
      Smaller(g, stack, id);
      hide Canon;
      forall c | Child(g[id], c) ensures Canon(g, c, stack + {id}).Ok? {
        GoodChild(g, id, c);
        AvoidingChild(g, id, c, stack);
        AvoidingIsAccepted(g, c, stack + {id});
      }
    }
  }

  lemma {:induction false} OnlyCircularFaults(g: Graph, v: Val, stack: set<Id>)
    requires AllGood(g, v) && Canon(g, v, stack).Err?
    ensures Canon(g, v, stack) == Err(Circular)
    decreases |g.Keys - stack|
  {
    var id := v.id;
    if id !in stack {
      NodeResult(g, id, stack);
      Smaller(g, stack, id);
      hide Canon;
      var c :| Child(g[id], c) && Canon(g, c, stack + {id}) == Canon(g, v, stack);
      GoodChild(g, id, c);
      OnlyCircularFaults(g, c, stack + {id});
    }
  }

  /** Accepted exactly when nothing unsupported is reachable and no walk meets a node twice. */
  lemma {:induction false} AcceptedIff(g: Graph, v: Val)
    ensures Canon(g, v, {}).Ok? <==> AllGood(g, v) && forall p :: RootedPath(g, v, p) ==> Simple(p)
  {
    if Canon(g, v, {}).Ok? {
      assert Good(g, v);
      hide Canon;
      forall p | RootedPath(g, v, p) ensures Simple(p) { AcceptedWalksAreSimple(g, v, {}, p); }
      forall p, c | RootedPath(g, v, p) && Child(g[p[|p| - 1]], c) ensures Good(g, c) { AcceptedValuesAreGood(g, v, {}, p, c); }
    } else if AllGood(g, v) && forall p :: RootedPath(g, v, p) ==> Simple(p) {
      AvoidingIsAccepted(g, v, {});
    }
  }

  /** On plain objects, arrays and JSON primitives the circular error means a reachable cycle. */
  lemma {:induction false} CircularIffCycle(g: Graph, v: Val)
    requires AllGood(g, v)
    ensures Canon(g, v, {}) == Err(Circular) <==> exists p :: RootedPath(g, v, p) && !Simple(p)
  {
    hide Canon;
    AcceptedIff(g, v);
    if Canon(g, v, {}).Err? { OnlyCircularFaults(g, v, {}); }
  }

  // ---------------------------------------------------------------- the unfolding

  predicate Defined(vals: map<string, Val>, keys: seq<string>, k: string) {
    k in keys && !Get(vals, k).Undefined?
  }

  /** `t` is the graph below `v` written out as a tree in enumeration order, leaving out the `hidden` keys. */
  ghost predicate Unfolds(g: Graph, v: Val, t: Tree, hidden: set<string>)
    decreases t
  {
    match t
    case TNull => v == Null
    case TStr(s) => v == Str(s)
    case TBool(b) => v == Bool(b)
    case TNum(n) => v == Num(n) || (v == NegZero && n == "0")
    case TArr(ts) =>
      && v.Ref? && v.id in g && g[v.id].Arr? && |ts| == |g[v.id].items|
      && forall i :: 0 <= i < |ts| ==> Unfolds(g, g[v.id].items[i], ts[i], hidden)
    case TObj(fields) =>
      && v.Ref? && v.id in g && g[v.id].Obj? && InOrder(fields)
      && (forall k :: Has(fields, k) <==> Defined(g[v.id].vals, g[v.id].keys, k) && k !in hidden)
      && forall i :: 0 <= i < |fields| ==> Unfolds(g, Get(g[v.id].vals, fields[i].key), fields[i].value, hidden)
  }

  /** A value has one unfolding, property order included. */
  lemma {:induction false} UnfoldingIsUnique(g: Graph, v: Val, t: Tree, t': Tree, hidden: set<string>)
    requires Unfolds(g, v, t, hidden) && Unfolds(g, v, t', hidden)
    ensures t == t'
    decreases t
  {
    hide InOrder;
    match t
    case TArr(ts) =>
      forall i | 0 <= i < |ts| ensures ts[i] == t'.items[i] { UnfoldingIsUnique(g, g[v.id].items[i], ts[i], t'.items[i], hidden); }
    case TObj(fields) =>
      SameKeysSameOrder(fields, t'.fields);
      forall i | 0 <= i < |fields| ensures fields[i] == t'.fields[i] {
        UnfoldingIsUnique(g, Get(g[v.id].vals, fields[i].key), fields[i].value, t'.fields[i].value, hidden);
      }
      assert fields == t'.fields;
    case _ =>
  }

  /** What an accepted node became, slot by slot. */
  lemma {:induction false} AcceptedNode(g: Graph, id: Id, stack: set<Id>)
    requires Canon(g, Ref(id), stack).Ok?
    ensures id in g && id !in stack
    ensures g[id].Arr? ==> var t := Canon(g, Ref(id), stack).value;
              && t.TArr? && |t.items| == |g[id].items|
              && forall i :: 0 <= i < |t.items| ==> Canon(g, g[id].items[i], stack + {id}) == Ok(t.items[i])
    ensures g[id].Obj? ==> var t := Canon(g, Ref(id), stack).value;
              && t.TObj? && InOrder(t.fields)
              && (forall k :: Has(t.fields, k) <==> Defined(g[id].vals, g[id].keys, k) && k != "__proto__")
              && (forall i :: 0 <= i < |t.fields| ==> Canon(g, Get(g[id].vals, t.fields[i].key), stack + {id}) == Ok(t.fields[i].value))
  {
    match g[id]
    case Arr(items) => ItemsResult(g, items, stack + {id});
    case Obj(keys, vals) => AcceptedObject(g, id, stack);
  }

  lemma {:induction false} AcceptedObject(g: Graph, id: Id, stack: set<Id>)
    requires Canon(g, Ref(id), stack).Ok? && id in g && g[id].Obj? && id !in stack
    ensures var t := Canon(g, Ref(id), stack).value;
            && t.TObj? && InOrder(t.fields)
            && (forall k :: Has(t.fields, k) <==> Defined(g[id].vals, g[id].keys, k) && k != "__proto__")
            && (forall i :: 0 <= i < |t.fields| ==> Canon(g, Get(g[id].vals, t.fields[i].key), stack + {id}) == Ok(t.fields[i].value))
  {
    var keys, vals := g[id].keys, g[id].vals;
    var fields := CanonFields(g, vals, SortStrings(keys), stack + {id});
    assert Canon(g, Ref(id), stack) == Ok(TObj(fields.value));
    FieldsResult(g, vals, SortStrings(keys), stack + {id});
    StringsAreOrdered();
    SortOrders(keys, StrLeq);
    FieldsInOrder(g, vals, SortStrings(keys), stack + {id});
    forall k ensures k in SortStrings(keys) <==> k in keys { SortMembers(keys, StrLeq, k); }
    hide Canon, CanonFields, SortStrings, InOrder;
  }

  lemma {:induction false} UnfoldsArray(g: Graph, id: Id, t: Tree, hidden: set<string>)
    requires id in g && g[id].Arr? && t.TArr? && |t.items| == |g[id].items|
    requires forall i :: 0 <= i < |t.items| ==> Unfolds(g, g[id].items[i], t.items[i], hidden)
    ensures Unfolds(g, Ref(id), t, hidden)
  {
  }

  lemma {:induction false} UnfoldsObject(g: Graph, id: Id, t: Tree, hidden: set<string>)
    requires id in g && g[id].Obj? && t.TObj? && InOrder(t.fields)
    requires forall k :: Has(t.fields, k) <==> Defined(g[id].vals, g[id].keys, k) && k !in hidden
    requires forall i :: 0 <= i < |t.fields| ==> Unfolds(g, Get(g[id].vals, t.fields[i].key), t.fields[i].value, hidden)
    ensures Unfolds(g, Ref(id), t, hidden)
  {
  }

  lemma {:induction false} UnfoldsPrimitive(g: Graph, v: Val, stack: set<Id>, hidden: set<string>)
    requires !v.Ref? && Canon(g, v, stack).Ok?
    ensures Unfolds(g, v, Canon(g, v, stack).value, hidden)
  {
  }

  /** The canonical form is the unfolding without own __proto__ keys. */
  lemma {:induction false} CanonUnfolds(g: Graph, v: Val, stack: set<Id>)
    requires Canon(g, v, stack).Ok?
    ensures Unfolds(g, v, Canon(g, v, stack).value, {"__proto__"})
    decreases |g.Keys - stack|
  {
    hide Canon, Unfolds;
    if v.Ref? {
      var id, t := v.id, Canon(g, v, stack).value;
      AcceptedNode(g, id, stack);
      Smaller(g, stack, id);
      match g[id]
      case Arr(items) =>
        forall i | 0 <= i < |items| ensures Unfolds(g, items[i], t.items[i], {"__proto__"}) { CanonUnfolds(g, items[i], stack + {id}); }
        UnfoldsArray(g, id, t, {"__proto__"});
      case Obj(keys, vals) =>
        forall i | 0 <= i < |t.fields| ensures Unfolds(g, Get(vals, t.fields[i].key), t.fields[i].value, {"__proto__"}) {
          CanonUnfolds(g, Get(vals, t.fields[i].key), stack + {id});
        }
        UnfoldsObject(g, id, t, {"__proto__"});
    } else {
      UnfoldsPrimitive(g, v, stack, {"__proto__"});
    }
  }

  ghost predicate OwnProto(n: Node) {
    n.Obj? && Defined(n.vals, n.keys, "__proto__")
  }

  ghost predicate Clean(g: Graph, v: Val) {
    forall p :: RootedPath(g, v, p) ==> !OwnProto(g[p[|p| - 1]])
  }

  lemma {:induction false} CleanChild(g: Graph, id: Id, c: Val)
    requires id in g && Clean(g, Ref(id))
    ensures !OwnProto(g[id])
    ensures Child(g[id], c) ==> Clean(g, c)
  {
    assert RootedPath(g, Ref(id), [id]) && [id][|[id]| - 1] == id;
    forall p | Child(g[id], c) && RootedPath(g, c, p) ensures !OwnProto(g[p[|p| - 1]]) {
      LongerPath(g, id, p);
      assert ([id] + p)[|[id] + p| - 1] == p[|p| - 1];
    }
  }

  lemma {:induction false} NoProtoUnfolds(g: Graph, v: Val, stack: set<Id>)
    requires Canon(g, v, stack).Ok? && Clean(g, v)
    ensures Unfolds(g, v, Canon(g, v, stack).value, {})
    decreases |g.Keys - stack|
  {
    hide Canon, Unfolds, Clean;
    if v.Ref? {
      var id, t := v.id, Canon(g, v, stack).value;
      AcceptedNode(g, id, stack);
      Smaller(g, stack, id);
      CleanChild(g, id, v);
      match g[id]
      case Arr(items) =>
        forall i | 0 <= i < |items| ensures Unfolds(g, items[i], t.items[i], {}) {
          CleanChild(g, id, items[i]);
          NoProtoUnfolds(g, items[i], stack + {id});
        }
        UnfoldsArray(g, id, t, {});
      case Obj(keys, vals) =>
        forall i | 0 <= i < |t.fields| ensures Unfolds(g, Get(vals, t.fields[i].key), t.fields[i].value, {}) {
          assert Has(t.fields, t.fields[i].key);
          CleanChild(g, id, Get(vals, t.fields[i].key));
          NoProtoUnfolds(g, Get(vals, t.fields[i].key), stack + {id});
        }
        UnfoldsObject(g, id, t, {});
    } else {
      UnfoldsPrimitive(g, v, stack, {});
    }
  }

  lemma {:induction false} ProtoSpoilsUnfolding(g: Graph, v: Val, stack: set<Id>, p: seq<Id>)
    requires Canon(g, v, stack).Ok? && RootedPath(g, v, p) && OwnProto(g[p[|p| - 1]])
    ensures !Unfolds(g, v, Canon(g, v, stack).value, {})
    decreases |p|
  {
    var id, t := p[0], Canon(g, v, stack).value;
    AcceptedNode(g, id, stack);
    hide Canon;
    if |p| > 1 && !OwnProto(g[id]) {
      RestOfPath(g, p, v);
      assert Child(g[p[0]], Ref(p[0 + 1]));
      match g[id]
      case Arr(items) =>
        var i :| 0 <= i < |items| && items[i] == Ref(p[1]);
        ProtoSpoilsUnfolding(g, items[i], stack + {id}, p[1..]);
      case Obj(keys, vals) =>
        var k :| k in keys && Get(vals, k) == Ref(p[1]);
        assert Has(t.fields, k);
        var i :| 0 <= i < |t.fields| && t.fields[i].key == k;
        ProtoSpoilsUnfolding(g, Get(vals, k), stack + {id}, p[1..]);
    }
  }

  /** The result is the full unfolding exactly when no reachable object owns a __proto__ key. */
  lemma {:induction false} FullUnfoldingIff(g: Graph, v: Val)
    requires Canon(g, v, {}).Ok?
    ensures Unfolds(g, v, Canon(g, v, {}).value, {}) <==> forall p :: RootedPath(g, v, p) ==> !OwnProto(g[p[|p| - 1]])
  {
    hide Canon, Unfolds;
    if Clean(g, v) {
      NoProtoUnfolds(g, v, {});
    } else {
      var p :| RootedPath(g, v, p) && OwnProto(g[p[|p| - 1]]);
      ProtoSpoilsUnfolding(g, v, {}, p);
    }
  }

  /** JSON.parse('{"__proto__":1}') and {} have the same canonical form. */
  lemma {:induction false} ProtoKeyIsDropped()
    ensures var g := map[0 := Obj(["__proto__"], map["__proto__" := Num("1")]), 1 := Obj([], map[])];
            && Canon(g, Ref(0), {}) == Ok(TObj([])) == Canon(g, Ref(1), {})
            && !Unfolds(g, Ref(0), TObj([]), {})
  {
    var g: Graph := map[0 := Obj(["__proto__"], map["__proto__" := Num("1")]), 1 := Obj([], map[])];
    assert SortStrings(["__proto__"]) == ["__proto__"];
    assert CanonFields(g, g[0].vals, ["__proto__"][..0], {0}) == Ok([]);
    assert Defined(g[0].vals, g[0].keys, "__proto__");
  }

  // ---------------------------------------------------------------- key order and sharing do not matter

  /** Both slots hold the same primitive; -0 counts as 0. */
  predicate SamePrimitive(a: Val, b: Val) {
    a == b || (a == NegZero && b == Num("0")) || (a == Num("0") && b == NegZero)
  }

  ghost predicate NodesMatch(R: (Val, Val) -> bool, n: Node, m: Node) {
    match n
    case Arr(items) => m.Arr? && |m.items| == |items| && forall i :: 0 <= i < |items| ==> R(items[i], m.items[i])
    case Obj(keys, vals) =>
      && m.Obj? && (forall k :: Defined(vals, keys, k) <==> Defined(m.vals, m.keys, k))
      && forall k :: Defined(vals, keys, k) ==> R(Get(vals, k), Get(m.vals, k))
  }

  /** Related slots look the same from outside: a bisimulation. */
  ghost predicate Bisimulation(R: (Val, Val) -> bool, g: Graph, h: Graph) {
    forall a, b :: R(a, b) ==>
      if a.Ref? && b.Ref? then (a.id in g <==> b.id in h) && (a.id in g ==> NodesMatch(R, g[a.id], h[b.id]))
      else !a.Ref? && !b.Ref? && SamePrimitive(a, b)
  }

  lemma {:induction false} MatchingChild(R: (Val, Val) -> bool, n: Node, m: Node, d: Val) returns (c: Val)
    requires NodesMatch(R, n, m) && Child(m, d)
    ensures Child(n, c) && R(c, d)
  {
    match m
    case Arr(items) =>
      var i :| 0 <= i < |items| && items[i] == d;
      c := n.items[i];
    case Obj(keys, vals) =>
      var k :| k in keys && Get(vals, k) == d;
      assert Defined(vals, keys, k);
      c := Get(n.vals, k);
  }

  /** A walk on one side is matched on the other, so it is no longer than that side has nodes. */
  lemma {:induction false} MatchedWalkIsShort(R: (Val, Val) -> bool, g: Graph, h: Graph, a: Val, b: Val, stack: set<Id>, p: seq<Id>)
    requires Bisimulation(R, g, h) && R(a, b) && Canon(g, a, stack).Ok? && RootedPath(h, b, p)
    ensures |p| <= |g.Keys - stack|
    decreases |p|
  {
    assert a.Ref?;
    var id := a.id;
    assert id in g && id !in stack;
    Smaller(g, stack, id);
    if |p| > 1 {
      NodeResult(g, id, stack);
      hide Canon;
      assert Child(h[p[0]], Ref(p[0 + 1]));
      var c := MatchingChild(R, g[id], h[p[0]], Ref(p[1]));
      RestOfPath(h, p, b);
      MatchedWalkIsShort(R, g, h, c, Ref(p[1]), stack + {id}, p[1..]);
    }
  }

  lemma {:induction false} MatchedValuesAreGood(R: (Val, Val) -> bool, g: Graph, h: Graph, a: Val, b: Val, stack: set<Id>, p: seq<Id>, d: Val)
    requires Bisimulation(R, g, h) && R(a, b) && Canon(g, a, stack).Ok? && RootedPath(h, b, p) && Child(h[p[|p| - 1]], d)
    ensures Good(h, d)
    decreases |p|
  {
    assert a.Ref?;
    var id := a.id;
    NodeResult(g, id, stack);
    if |p| > 1 {
      hide Canon;
      assert Child(h[p[0]], Ref(p[0 + 1]));
      var c := MatchingChild(R, g[id], h[p[0]], Ref(p[1]));
      RestOfPath(h, p, b);
      MatchedValuesAreGood(R, g, h, c, Ref(p[1]), stack + {id}, p[1..], d);
    } else {
      var c := MatchingChild(R, g[id], h[p[0]], d);
      assert Canon(g, c, stack + {id}).Ok?;
    }
  }

  /** A walk that meets a node twice can be made as long as one likes. */
  lemma {:induction false} Pump(g: Graph, v: Val, p: seq<Id>, i: nat, j: nat, n: nat) returns (q: seq<Id>)
    requires RootedPath(g, v, p) && i < j < |p| && p[i] == p[j]
    ensures RootedPath(g, v, q) && |q| >= n
    decreases n - |p|
  {
    if |p| >= n {
      q := p;
    } else {
      var longer := p[..j] + p[i..];
      forall k | 0 <= k < |longer| - 1 ensures Child(g[longer[k]], Ref(longer[k + 1])) {
        if k < j - 1 { assert Child(g[p[k]], Ref(p[k + 1])); }
        else if k == j - 1 { assert Child(g[p[k]], Ref(p[k + 1])); }
        else { assert Child(g[p[k - j + i]], Ref(p[k - j + i + 1])); }
      }
      q := Pump(g, v, longer, i, j, n);
    }
  }

  lemma {:induction false} MatchedIsAccepted(R: (Val, Val) -> bool, g: Graph, h: Graph, a: Val, b: Val)
    requires Bisimulation(R, g, h) && R(a, b) && Canon(g, a, {}).Ok?
    ensures Canon(h, b, {}).Ok?
  {
    assert Good(h, b);
    hide Canon;
    forall p | RootedPath(h, b, p) ensures Simple(p) {
      if !Simple(p) {
        var i, j :| 0 <= i < j < |p| && p[i] == p[j];
        var q := Pump(h, b, p, i, j, |g.Keys - {}| + 1);
        MatchedWalkIsShort(R, g, h, a, b, {}, q);
      }
    }
    forall p, d | RootedPath(h, b, p) && Child(h[p[|p| - 1]], d) ensures Good(h, d) { MatchedValuesAreGood(R, g, h, a, b, {}, p, d); }
    AcceptedIff(h, b);
  }

  /** Matching objects list the same keys in the same order, with related values. */
  lemma {:induction false} MatchedKeys(R: (Val, Val) -> bool, n: Node, m: Node, a: seq<Field>, b: seq<Field>)
    requires n.Obj? && NodesMatch(R, n, m) && InOrder(a) && InOrder(b)
    requires forall k :: Has(a, k) <==> Defined(n.vals, n.keys, k) && k != "__proto__"
    requires forall k :: Has(b, k) <==> Defined(m.vals, m.keys, k) && k != "__proto__"
    ensures |a| == |b| && forall i :: 0 <= i < |a| ==> a[i].key == b[i].key && R(Get(n.vals, a[i].key), Get(m.vals, a[i].key))
  {
    forall k ensures Has(a, k) <==> Has(b, k) { assert Defined(n.vals, n.keys, k) <==> Defined(m.vals, m.keys, k); }
    SameKeysSameOrder(a, b);
    hide InOrder;
    forall i | 0 <= i < |a| ensures R(Get(n.vals, a[i].key), Get(m.vals, a[i].key)) {
      assert Has(a, a[i].key);
      assert Defined(n.vals, n.keys, a[i].key);
    }
  }

  lemma {:induction false} MatchedNodes(R: (Val, Val) -> bool, g: Graph, h: Graph, a: Val, b: Val)
    requires Bisimulation(R, g, h) && R(a, b) && a.Ref? && a.id in g
    ensures b.Ref? && b.id in h && NodesMatch(R, g[a.id], h[b.id])
  {
  }

  lemma {:induction false} MatchedPrimitives(R: (Val, Val) -> bool, g: Graph, h: Graph, a: Val, b: Val, s: set<Id>, u: set<Id>)
    requires Bisimulation(R, g, h) && R(a, b) && !a.Ref?
    ensures Canon(g, a, s) == Canon(h, b, u)
  {
  }

  lemma {:induction false} MatchedTreesAgree(R: (Val, Val) -> bool, g: Graph, h: Graph, a: Val, b: Val, s: set<Id>, u: set<Id>)
    requires Bisimulation(R, g, h) && R(a, b) && Canon(g, a, s).Ok? && Canon(h, b, u).Ok?
    ensures Canon(g, a, s) == Canon(h, b, u)
    decreases |g.Keys - s|
  {
    hide Canon, Bisimulation, InOrder, Has, Defined;
    if !a.Ref? {
      MatchedPrimitives(R, g, h, a, b, s, u);
    } else {
      AcceptedNode(g, a.id, s);
      MatchedNodes(R, g, h, a, b);
      AcceptedNode(h, b.id, u);
      Smaller(g, s, a.id);
      var t, t' := Canon(g, a, s).value, Canon(h, b, u).value;
      match g[a.id]
      case Arr(items) =>
        forall i | 0 <= i < |items| ensures t.items[i] == t'.items[i] {
          MatchedTreesAgree(R, g, h, items[i], h[b.id].items[i], s + {a.id}, u + {b.id});
        }
        assert t.items == t'.items;
      case Obj(keys, vals) =>
        MatchedKeys(R, g[a.id], h[b.id], t.fields, t'.fields);
        forall i | 0 <= i < |t.fields| ensures t.fields[i] == t'.fields[i] {
          var k := t.fields[i].key;
          MatchedTreesAgree(R, g, h, Get(vals, k), Get(h[b.id].vals, k), s + {a.id}, u + {b.id});
        }
        assert t.fields == t'.fields;
    }
  }

  lemma {:induction false} Converse(R: (Val, Val) -> bool, g: Graph, h: Graph)
    requires Bisimulation(R, g, h)
    ensures Bisimulation((x, y) => R(y, x), h, g)
  {
  }

  /**
   * Inputs that look the same from outside, however their nodes are shared and their keys
   * ordered, are accepted together and have the same canonical form.
   */
  lemma {:induction false} LookAlikesHaveOneForm(R: (Val, Val) -> bool, g: Graph, h: Graph, a: Val, b: Val)
    requires Bisimulation(R, g, h) && R(a, b)
    ensures Canon(g, a, {}).Ok? <==> Canon(h, b, {}).Ok?
    ensures Canon(g, a, {}).Ok? ==> Canon(g, a, {}) == Canon(h, b, {})
  {
    hide Canon;
    if Canon(g, a, {}).Ok? { MatchedIsAccepted(R, g, h, a, b); }
    if Canon(h, b, {}).Ok? {
      Converse(R, g, h);
      MatchedIsAccepted((x, y) => R(y, x), h, g, b, a);
    }
    if Canon(g, a, {}).Ok? { MatchedTreesAgree(R, g, h, a, b, {}, {}); }
  }

  /** Same nodes, same values, keys merely listed in another order. */
  ghost predicate Reordered(g: Graph, h: Graph) {
    && g.Keys == h.Keys
    && forall id :: id in g ==>
         if g[id].Arr? then h[id] == g[id]
         else h[id].Obj? && h[id].vals == g[id].vals && multiset(h[id].keys) == multiset(g[id].keys)
  }

  /** Key order is invisible even in which error is raised. */
  lemma {:induction false} KeyOrderIsIrrelevant(g: Graph, h: Graph, v: Val, stack: set<Id>)
    requires Reordered(g, h)
    ensures Canon(g, v, stack) == Canon(h, v, stack)
    decreases |g.Keys - stack|, 0
  {
    if v.Ref? && v.id in g && v.id !in stack {
      Smaller(g, stack, v.id);
      match g[v.id]
      case Arr(items) => ItemsAgree(g, h, items, stack + {v.id});
      case Obj(keys, vals) =>
        StringsAreOrdered();
        SortIsCanonical(keys, h[v.id].keys, StrLeq);
        FieldsAgree(g, h, vals, SortStrings(keys), stack + {v.id});
    }
  }

  lemma {:induction false} ItemsAgree(g: Graph, h: Graph, items: seq<Val>, stack: set<Id>)
    requires Reordered(g, h)
    ensures CanonItems(g, items, stack) == CanonItems(h, items, stack)
    decreases |g.Keys - stack|, 1 + |items|
  {
    if items != [] {
      var n := |items| - 1;
      ItemsAgree(g, h, items[..n], stack);
      KeyOrderIsIrrelevant(g, h, items[n], stack);
    }
  }

  lemma {:induction false} FieldsAgree(g: Graph, h: Graph, vals: map<string, Val>, keys: seq<string>, stack: set<Id>)
    requires Reordered(g, h)
    ensures CanonFields(g, vals, keys, stack) == CanonFields(h, vals, keys, stack)
    decreases |g.Keys - stack|, 1 + |keys|
  {
    if keys != [] {
      var n := |keys| - 1;
      FieldsAgree(g, h, vals, keys[..n], stack);
      KeyOrderIsIrrelevant(g, h, Get(vals, keys[n]), stack);
    }
  }

  /** Without a reachable cycle, only something unsupported is refused. */
  lemma {:induction false} AcyclicFaultIsUnsupported(g: Graph, v: Val, stack: set<Id>)
    requires WalksAvoid(g, v, stack) && Canon(g, v, stack).Err?
    ensures Canon(g, v, stack) == Err(Unsupported)
    decreases |g.Keys - stack|
  {
    if v.Ref? && v.id in g {
      var id := v.id;
      assert RootedPath(g, v, [id]);
      assert [id][0] !in stack;
      NodeResult(g, id, stack);
      Smaller(g, stack, id);
      hide Canon;
      var c :| Child(g[id], c) && Canon(g, c, stack + {id}) == Canon(g, v, stack);
      AvoidingChild(g, id, c, stack);
      AcyclicFaultIsUnsupported(g, c, stack + {id});
    }
  }

  // ---------------------------------------------------------------- the text

  /** UTF-8 length. */
  function Bytes(s: string): nat {
    if s == [] then 0
    else
      var c := s[0] as int;
      Bytes(s[1..]) + if c < 0x80 then 1 else if c < 0x800 then 2 else if c < 0x1_0000 then 3 else 4
  }

  function StableStringify(g: Graph, v: Val, maxBytes: nat): Result<string> {
    var canonical := Canon(g, v, {});
    if canonical.Err? then Err(canonical.fault)
    else if Bytes(JsonText(canonical.value)) > maxBytes then Err(TooLarge)
    else Ok(JsonText(canonical.value))
  }

  /** Every object inside a tree lists its keys in enumeration order. */
  ghost predicate Sorted(t: Tree) {
    match t
    case TArr(ts) => forall i :: 0 <= i < |ts| ==> Sorted(ts[i])
    case TObj(fields) => InOrder(fields) && forall i :: 0 <= i < |fields| ==> Sorted(fields[i].value)
    case _ => true
  }

  lemma {:induction false} UnfoldingIsSorted(g: Graph, v: Val, t: Tree, hidden: set<string>)
    requires Unfolds(g, v, t, hidden)
    ensures Sorted(t)
    decreases t
  {
    hide InOrder;
    match t
    case TArr(ts) => forall i | 0 <= i < |ts| ensures Sorted(ts[i]) { UnfoldingIsSorted(g, g[v.id].items[i], ts[i], hidden); }
    case TObj(fields) =>
      forall i | 0 <= i < |fields| ensures Sorted(fields[i].value) {
        UnfoldingIsSorted(g, Get(g[v.id].vals, fields[i].key), fields[i].value, hidden);
      }
    case _ =>
  }

  /** The result is key-sorted at every level. */
  lemma {:induction false} CanonIsSorted(g: Graph, v: Val)
    requires Canon(g, v, {}).Ok?
    ensures Sorted(Canon(g, v, {}).value)
  {
    hide Canon, Sorted, Unfolds;
    CanonUnfolds(g, v, {});
    UnfoldingIsSorted(g, v, Canon(g, v, {}).value, {"__proto__"});
  }

  /** The UTF-8 encoding of a string. */
  function Utf8(s: string): seq<int> {
    if s == [] then [] else QueryBytes.Utf8(s[0] as int) + Utf8(s[1..])
  }

  lemma {:induction false} BytesIsUtf8Length(s: string)
    ensures Bytes(s) == |Utf8(s)|
  {
    if s != [] { BytesIsUtf8Length(s[1..]); }
  }

  /** A text that comes out fits the limit and reads back as the key-sorted unfolding of the value. */
  lemma {:induction false} TextReadsBack(g: Graph, v: Val, maxBytes: nat)
    requires StableStringify(g, v, maxBytes).Ok?
    ensures var text := StableStringify(g, v, maxBytes).value;
            && |Utf8(text)| <= maxBytes
            && exists t :: Unfolds(g, v, t, {"__proto__"}) && Sorted(t) && JsonReader.ReadValue(text) == JsonReader.Read(t, [])
  {
    var t := Canon(g, v, {}).value;
    BytesIsUtf8Length(JsonText(t));
    CanonUnfolds(g, v, {});
    CanonIsSorted(g, v);
    JsonReader.TextReadsBack(t);
    hide Canon, Unfolds, Sorted, JsonText, Bytes, Utf8;
  }

  /** A value is too large exactly if it is accepted and the UTF-8 text that stands for it passes the limit. */
  lemma {:induction false} TooLargeIff(g: Graph, v: Val, maxBytes: nat)
    ensures StableStringify(g, v, maxBytes) == Err(TooLarge) <==>
            Canon(g, v, {}).Ok? && exists t :: Unfolds(g, v, t, {"__proto__"}) && |Utf8(JsonText(t))| > maxBytes
    ensures Canon(g, v, {}).Err? ==> StableStringify(g, v, maxBytes) == Err(Canon(g, v, {}).fault)
  {
    if Canon(g, v, {}).Ok? {
      var t := Canon(g, v, {}).value;
      BytesIsUtf8Length(JsonText(t));
      CanonUnfolds(g, v, {});
      hide Canon, Unfolds, JsonText, Bytes, Utf8;
      if u :| Unfolds(g, v, u, {"__proto__"}) && |Utf8(JsonText(u))| > maxBytes { UnfoldingIsUnique(g, v, t, u, {"__proto__"}); }
    } else {
      NeverTooLarge(g, v, {});
    }
  }

  lemma {:induction false} NeverTooLarge(g: Graph, v: Val, stack: set<Id>)
    ensures Canon(g, v, stack) != Err(TooLarge)
    decreases |g.Keys - stack|, 0
  {
    if v.Ref? && v.id in g && v.id !in stack {
      Smaller(g, stack, v.id);
      match g[v.id]
      case Arr(items) => ItemsNeverTooLarge(g, items, stack + {v.id});
      case Obj(keys, vals) => FieldsNeverTooLarge(g, vals, SortStrings(keys), stack + {v.id});
    }
  }

  lemma {:induction false} ItemsNeverTooLarge(g: Graph, items: seq<Val>, stack: set<Id>)
    ensures CanonItems(g, items, stack) != Err(TooLarge)
    decreases |g.Keys - stack|, 1 + |items|
  {
    if items != [] {
      ItemsNeverTooLarge(g, items[..|items| - 1], stack);
      NeverTooLarge(g, items[|items| - 1], stack);
    }
  }

  lemma {:induction false} FieldsNeverTooLarge(g: Graph, vals: map<string, Val>, keys: seq<string>, stack: set<Id>)
    ensures CanonFields(g, vals, keys, stack) != Err(TooLarge)
    decreases |g.Keys - stack|, 1 + |keys|
  {
    if keys != [] {
      FieldsNeverTooLarge(g, vals, keys[..|keys| - 1], stack);
      NeverTooLarge(g, Get(vals, keys[|keys| - 1]), stack);
    }
  }

  /** Inputs that differ only in sharing and key order give the same string. */
  lemma {:induction false} LookAlikesHaveOneText(R: (Val, Val) -> bool, g: Graph, h: Graph, a: Val, b: Val, maxBytes: nat)
    requires Bisimulation(R, g, h) && R(a, b)
    ensures StableStringify(g, a, maxBytes).Ok? <==> StableStringify(h, b, maxBytes).Ok?
    ensures StableStringify(g, a, maxBytes).Ok? ==> StableStringify(g, a, maxBytes) == StableStringify(h, b, maxBytes)
  {
    hide Canon, JsonText, Bytes;
    LookAlikesHaveOneForm(R, g, h, a, b);
  }

  /** And the same string means the same canonical tree: nothing but sharing, order, -0 and __proto__ is forgotten. */
  lemma {:induction false} SameTextMeansSameTree(g: Graph, h: Graph, a: Val, b: Val, maxBytes: nat)
    requires StableStringify(g, a, maxBytes).Ok? && StableStringify(h, b, maxBytes).Ok?
    ensures StableStringify(g, a, maxBytes) == StableStringify(h, b, maxBytes) <==>
            exists t :: Unfolds(g, a, t, {"__proto__"}) && Unfolds(h, b, t, {"__proto__"})
  {
    hide Canon, JsonText, Bytes, Unfolds;
    var t, u := Canon(g, a, {}).value, Canon(h, b, {}).value;
    SameTextIffSameTree(t, u);
    CanonUnfolds(g, a, {});
    CanonUnfolds(h, b, {});
    if x :| Unfolds(g, a, x, {"__proto__"}) && Unfolds(h, b, x, {"__proto__"}) {
      UnfoldingIsUnique(g, a, t, x, {"__proto__"});
      UnfoldingIsUnique(h, b, u, x, {"__proto__"});
    }
  }
}
