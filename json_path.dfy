/**
 * `JsonPathUtilities`: finding the JSON path of an object inside an object
 * graph by a depth-first search that remembers every object it has entered,
 * so that it ends on cyclic graphs, and the public wrapper that lets a schema
 * resolver append a schema that was not found and searches again.
 */
module JsonPath {
  import opened JsonModel
  import opened StringUtil
  import GeneratorSettings

  type ObjId = nat

  /** What a reference in the object graph holds: null, a string, or an object. */
  datatype Value = NullValue | Text(s: string) | Ref(id: ObjId)

  /** A member of a plain object, with whether it carries `[JsonIgnore]`. */
  datatype Field = Field(name: string, value: Value, ignored: bool)

  /** The three shapes the search distinguishes: `IDictionary`, other `IEnumerable`, any other object. */
  datatype Node =
    | Dictionary(entries: seq<Entry>)
    | Enumerable(items: seq<Value>)
    | Plain(fields: seq<Field>)

  datatype Entry = Entry(key: string, value: Value)

  /** A child the search descends into, with the path segment it adds. */
  datatype Child = Child(segment: string, value: Value)

  type Heap = map<ObjId, Node>

  function EntryChildren(entries: seq<Entry>): (r: seq<Child>)
    ensures |r| == |entries|
    ensures forall i :: 0 <= i < |r| ==> r[i] == Child(entries[i].key, entries[i].value)
  {
    if entries == [] then []
    else [Child(entries[0].key, entries[0].value)] + EntryChildren(entries[1..])
  }

  /** Element i of an enumerable is reached through the segment "i", counting from 0. */
  function ItemChildren(items: seq<Value>, from: nat): (r: seq<Child>)
    ensures |r| == |items|
    ensures forall i :: 0 <= i < |r| ==> r[i] == Child(NatToString(from + i), items[i])
    decreases |items|
  {
    if items == [] then []
    else [Child(NatToString(from), items[0])] + ItemChildren(items[1..], from + 1)
  }

  /** The members of a plain object that are not ignored and whose value is not null. */
  function FieldChildren(fields: seq<Field>): (r: seq<Child>)
    ensures |r| <= |fields|
    ensures forall c :: c in r ==>
      c.value != NullValue && exists f :: f in fields && !f.ignored && c == Child(f.name, f.value)
    ensures forall f :: f in fields && !f.ignored && f.value != NullValue ==> Child(f.name, f.value) in r
  {
    if fields == [] then []
    else
      var f := fields[0];
      (if f.ignored || f.value == NullValue then [] else [Child(f.name, f.value)]) +
      FieldChildren(fields[1..])
  }

  /** The children of a node, in the order the search visits them. */
  function Children(n: Node): seq<Child>
  {
    match n
    case Dictionary(entries) => EntryChildren(entries)
    case Enumerable(items) => ItemChildren(items, 0)
    case Plain(fields) => FieldChildren(fields)
  }

  /** Every object reference in the graph names an object of the graph. */
  ghost predicate Closed(heap: Heap)
  {
    forall id, k :: id in heap && 0 <= k < |Children(heap[id])| && Children(heap[id])[k].value.Ref? ==>
      Children(heap[id])[k].value.id in heap
  }

  predicate InHeap(heap: Heap, v: Value)
  {
    v.Ref? ==> v.id in heap
  }

  /** How many objects the search may still enter. */
  function Unvisited(heap: Heap, checked: set<ObjId>): nat
  {
    |heap.Keys - checked|
  }

  lemma UnvisitedShrinks(heap: Heap, checked: set<ObjId>, later: set<ObjId>)
    requires checked <= later
    ensures Unvisited(heap, later) <= Unvisited(heap, checked)
    ensures (exists x :: x in heap && x !in checked && x in later) ==>
      Unvisited(heap, later) < Unvisited(heap, checked)
  {
    var a := heap.Keys - checked;
    var b := heap.Keys - later;
    assert a == b + (a - b);
    assert b * (a - b) == {};
  }

  /**
   * The private recursive `GetJsonPath(obj, searchedObject, basePath,
   * checkedObjects)`: the path found, if any, and the set of objects entered
   * so far. Null, strings and entered objects give no path; the searched
   * object gives the path that led to it; any other object is entered and its
   * children are searched in order. A dangling reference, which a closed
   * graph does not have, gives no path.
   */
  function Find(heap: Heap, target: ObjId, v: Value, base: string, checked: set<ObjId>)
    : (r: (Option<string>, set<ObjId>))
    ensures checked <= r.1
    decreases Unvisited(heap, checked), 0, 0
  {
    if !v.Ref? || v.id in checked then (None, checked)
    else if v.id == target then (Some(base), checked)
    else if v.id !in heap then (None, checked)
    else
      UnvisitedShrinks(heap, checked, checked + {v.id});
      FindAmong(heap, target, Children(heap[v.id]), 0, base, checked + {v.id})
  }

  /** The loop over the children of an entered object: the first child's path that is found wins. */
  function FindAmong(heap: Heap, target: ObjId, cs: seq<Child>, i: nat, base: string, checked: set<ObjId>)
    : (r: (Option<string>, set<ObjId>))
    requires i <= |cs|
    ensures checked <= r.1
    decreases Unvisited(heap, checked), 1, |cs| - i
  {
    if i == |cs| then (None, checked)
    else
      var first := Find(heap, target, cs[i].value, base + "/" + cs[i].segment, checked);
      if first.0.Some? then first
      else
        UnvisitedShrinks(heap, checked, first.1);
        FindAmong(heap, target, cs, i + 1, base, first.1)
  }

  /** Where a sequence of child positions leads from `v`, and the path text it spells. */
  datatype Hop = Hop(reached: Value, suffix: string)

  function Walk(heap: Heap, v: Value, steps: seq<nat>): Option<Hop>
    decreases |steps|
  {
    if steps == [] then Some(Hop(v, ""))
    else if v.Ref? && v.id in heap && steps[0] < |Children(heap[v.id])| then
      var c := Children(heap[v.id])[steps[0]];
      match Walk(heap, c.value, steps[1..])
      case Some(h) => Some(Hop(h.reached, "/" + c.segment + h.suffix))
      case None => None
    else None
  }

  /**
   * Every path the search returns is real: following it from the start
   * reaches the searched object, and the returned text is the start path
   * followed by the segments on the way.
   */
  lemma {:induction false} FindSound(heap: Heap, target: ObjId, v: Value, base: string, checked: set<ObjId>)
    returns (steps: seq<nat>, suffix: string)
    requires Find(heap, target, v, base, checked).0.Some?
    ensures Walk(heap, v, steps) == Some(Hop(Ref(target), suffix))
    ensures Find(heap, target, v, base, checked).0.value == base + suffix
    decreases Unvisited(heap, checked), 0, 0
  {
    if v.id == target {
      steps, suffix := [], "";
    } else {
      UnvisitedShrinks(heap, checked, checked + {v.id});
      var k, rest, s := FindAmongSound(heap, target, Children(heap[v.id]), 0, base, checked + {v.id});
      var segment := Children(heap[v.id])[k].segment;
      steps, suffix := [k] + rest, "/" + segment + s;
      assert steps[1..] == rest;
      ConcatAssoc(base, "/", segment);
      ConcatAssoc(base, "/" + segment, s);
      // The same equation as terms, so that the solver need not compare the strings character by character.
      assert Some(Find(heap, target, v, base, checked).0.value) == Some(base + suffix);
    }
  }

  lemma {:induction false} FindAmongSound(heap: Heap, target: ObjId, cs: seq<Child>, i: nat, base: string,
                                          checked: set<ObjId>)
    returns (k: nat, steps: seq<nat>, suffix: string)
    requires i <= |cs|
    requires FindAmong(heap, target, cs, i, base, checked).0.Some?
    ensures i <= k < |cs|
    ensures Walk(heap, cs[k].value, steps) == Some(Hop(Ref(target), suffix))
    ensures FindAmong(heap, target, cs, i, base, checked).0.value == base + "/" + cs[k].segment + suffix
    decreases Unvisited(heap, checked), 1, |cs| - i
  {
    var first := Find(heap, target, cs[i].value, base + "/" + cs[i].segment, checked);
    if first.0.Some? {
      k := i;
      steps, suffix := FindSound(heap, target, cs[i].value, base + "/" + cs[i].segment, checked);
    } else {
      UnvisitedShrinks(heap, checked, first.1);
      k, steps, suffix := FindAmongSound(heap, target, cs, i + 1, base, first.1);
    }
  }

  /** Every object reference that object `o` holds is in `s`. */
  ghost predicate RefsIn(heap: Heap, o: ObjId, s: set<ObjId>)
  {
    o in heap ==>
      forall k :: 0 <= k < |Children(heap[o])| && Children(heap[o])[k].value.Ref? ==>
        Children(heap[o])[k].value.id in s
  }

  /** Every object of `entered` has all its references in `all`. */
  ghost predicate EnteredClosed(heap: Heap, entered: set<ObjId>, all: set<ObjId>)
  {
    forall o :: o in entered ==> RefsIn(heap, o, all)
  }

  /**
   * A search that finds nothing has entered the start object and, with it,
   * every object referenced from an object it entered; the searched object
   * is never entered.
   */
  lemma {:induction false} FindNoneCloses(heap: Heap, target: ObjId, v: Value, base: string, checked: set<ObjId>)
    requires Closed(heap) && InHeap(heap, v)
    requires target !in checked
    requires Find(heap, target, v, base, checked).0.None?
    ensures var c := Find(heap, target, v, base, checked).1;
      target !in c && (v.Ref? ==> v.id in c) && EnteredClosed(heap, c - checked, c)
    decreases Unvisited(heap, checked), 0, 0, 0
  {
    if v.Ref? && v.id !in checked {
      var cs := Children(heap[v.id]);
      UnvisitedShrinks(heap, checked, checked + {v.id});
      FindAmongNoneCloses(heap, target, cs, 0, base, checked + {v.id});
      var c := Find(heap, target, v, base, checked).1;
      assert c == FindAmong(heap, target, cs, 0, base, checked + {v.id}).1;
      assert RefsIn(heap, v.id, c);
    }
  }

  lemma {:induction false} FindAmongNoneCloses(heap: Heap, target: ObjId, cs: seq<Child>, i: nat, base: string,
                                               checked: set<ObjId>)
    requires Closed(heap) && i <= |cs|
    requires forall j :: 0 <= j < |cs| ==> InHeap(heap, cs[j].value)
    requires target !in checked
    requires FindAmong(heap, target, cs, i, base, checked).0.None?
    ensures var c := FindAmong(heap, target, cs, i, base, checked).1;
      target !in c &&
      (forall j :: i <= j < |cs| && cs[j].value.Ref? ==> cs[j].value.id in c) &&
      EnteredClosed(heap, c - checked, c)
    decreases Unvisited(heap, checked), 1, |cs| - i, 1
  {
    if i < |cs| {
      var first := Find(heap, target, cs[i].value, base + "/" + cs[i].segment, checked);
      assert first.0.None? && FindAmong(heap, target, cs, i, base, checked) ==
        FindAmong(heap, target, cs, i + 1, base, first.1);
      assert InHeap(heap, cs[i].value);
      FindNoneCloses(heap, target, cs[i].value, base + "/" + cs[i].segment, checked);
      FindAmongNoneClosesAfter(heap, target, cs, i, base, checked, first.1);
    }
  }

  /** The rest of the children's loop, once child i's search has entered up to `mid` and found nothing. */
  lemma {:induction false} FindAmongNoneClosesAfter(heap: Heap, target: ObjId, cs: seq<Child>, i: nat, base: string,
                                                    checked: set<ObjId>, mid: set<ObjId>)
    requires Closed(heap) && i < |cs|
    requires forall j :: 0 <= j < |cs| ==> InHeap(heap, cs[j].value)
    requires checked <= mid && target !in mid
    requires cs[i].value.Ref? ==> cs[i].value.id in mid
    requires EnteredClosed(heap, mid - checked, mid)
    requires FindAmong(heap, target, cs, i + 1, base, mid).0.None?
    ensures var c := FindAmong(heap, target, cs, i + 1, base, mid).1;
      target !in c &&
      (forall j :: i <= j < |cs| && cs[j].value.Ref? ==> cs[j].value.id in c) &&
      EnteredClosed(heap, c - checked, c)
    decreases Unvisited(heap, checked), 1, |cs| - i, 0
  {
    UnvisitedShrinks(heap, checked, mid);
    FindAmongNoneCloses(heap, target, cs, i + 1, base, mid);
    var c := FindAmong(heap, target, cs, i + 1, base, mid).1;
    ClosedUnion(heap, checked, mid, c);
    RefsCoveredFrom(cs, i, mid, c);
  }

  /** The references of children i.. are in `all` when child i's is in `mid`, `mid` is within `all`, and the later ones are in `all`. */
  lemma RefsCoveredFrom(cs: seq<Child>, i: nat, mid: set<ObjId>, all: set<ObjId>)
    requires i < |cs| && mid <= all
    requires cs[i].value.Ref? ==> cs[i].value.id in mid
    requires forall j :: i + 1 <= j < |cs| && cs[j].value.Ref? ==> cs[j].value.id in all
    ensures forall j :: i <= j < |cs| && cs[j].value.Ref? ==> cs[j].value.id in all
  {
  }

  /** Two consecutive stretches of entering, each closed within what was entered by its end, are closed together. */
  lemma ClosedUnion(heap: Heap, checked: set<ObjId>, mid: set<ObjId>, all: set<ObjId>)
    requires checked <= mid <= all
    requires EnteredClosed(heap, mid - checked, mid)
    requires EnteredClosed(heap, all - mid, all)
    ensures EnteredClosed(heap, all - checked, all)
  {
    forall o | o in all - checked
      ensures RefsIn(heap, o, all)
    {
      if o in mid {
        RefsInGrows(heap, o, mid, all);
      }
    }
  }

  lemma RefsInGrows(heap: Heap, o: ObjId, s: set<ObjId>, t: set<ObjId>)
    requires RefsIn(heap, o, s) && s <= t
    ensures RefsIn(heap, o, t)
  {
  }

  /** Following child positions from an entered object of a closed entered set stays inside it. */
  lemma {:induction false} WalkStaysIn(heap: Heap, v: Value, steps: seq<nat>, entered: set<ObjId>)
    requires v.Ref? && v.id in entered && EnteredClosed(heap, entered, entered)
    requires Walk(heap, v, steps).Some?
    ensures Walk(heap, v, steps).value.reached.Ref? ==> Walk(heap, v, steps).value.reached.id in entered
    decreases |steps|
  {
    if steps != [] {
      var c := Children(heap[v.id])[steps[0]];
      assert RefsIn(heap, v.id, entered);
      if c.value.Ref? {
        WalkStaysIn(heap, c.value, steps[1..], entered);
      }
    }
  }

  /** A search from the root over a closed graph that finds nothing means the searched object is unreachable. */
  lemma FindNoneUnreachable(heap: Heap, target: ObjId, root: Value, base: string, steps: seq<nat>)
    requires Closed(heap) && InHeap(heap, root)
    requires Find(heap, target, root, base, {}).0.None?
    ensures Walk(heap, root, steps).None? || Walk(heap, root, steps).value.reached != Ref(target)
  {
    FindNoneCloses(heap, target, root, base, {});
    var c := Find(heap, target, root, base, {}).1;
    assert c - {} == c;
    if Walk(heap, root, steps).Some? && root.Ref? {
      WalkStaysIn(heap, root, steps, c);
    }
  }

  /** Completeness: an object reachable from the root of a closed graph is found. */
  lemma FindComplete(heap: Heap, target: ObjId, root: Value, base: string, steps: seq<nat>)
    requires Closed(heap) && InHeap(heap, root)
    requires Walk(heap, root, steps).Some? && Walk(heap, root, steps).value.reached == Ref(target)
    ensures Find(heap, target, root, base, {}).0.Some?
  {
    if Find(heap, target, root, base, {}).0.None? {
      FindNoneUnreachable(heap, target, root, base, steps);
      assert false;
    }
  }

  /** The searched object itself, when not yet entered, is found at the start path. */
  lemma RootIsFound(heap: Heap, target: ObjId, base: string, checked: set<ObjId>)
    requires target !in checked
    ensures Find(heap, target, Ref(target), base, checked) == (Some(base), checked)
  {
  }

  /** One search: the graph, the searched object, and the `checkedObjects` set it fills. */
  class PathSearch {
    const heap: Heap
    const target: ObjId
    var checkedObjects: set<ObjId>

    constructor (heap: Heap, target: ObjId)
      ensures this.heap == heap && this.target == target && checkedObjects == {}
    {
      this.heap := heap;
      this.target := target;
      checkedObjects := {};
    }

    /** `GetJsonPath(obj, searchedObject, basePath, checkedObjects)`. */
    method Search(v: Value, basePath: string) returns (path: Option<string>)
      requires Closed(heap) && InHeap(heap, v)
      modifies this
      ensures (path, checkedObjects) == Find(heap, target, v, basePath, old(checkedObjects))
      decreases Unvisited(heap, checkedObjects)
    {
      if !v.Ref? || v.id in checkedObjects {
        return None;
      }
      if v.id == target {
        return Some(basePath);
      }
      ghost var entered := checkedObjects;
      UnvisitedShrinks(heap, entered, entered + {v.id});
      checkedObjects := checkedObjects + {v.id};
      var children := Children(heap[v.id]);
      ghost var start := checkedObjects;
      var i := 0;
      while i < |children|
        invariant 0 <= i <= |children|
        invariant start <= checkedObjects
        invariant FindAmong(heap, target, children, 0, basePath, start) ==
                  FindAmong(heap, target, children, i, basePath, checkedObjects)
        decreases |children| - i
      {
        UnvisitedShrinks(heap, entered, checkedObjects);
        ghost var before := checkedObjects;
        path := Search(children[i].value, basePath + "/" + children[i].segment);
        if path.Some? {
          return;
        }
        UnvisitedShrinks(heap, before, checkedObjects);
        i := i + 1;
      }
      return None;
    }
  }

  /**
   * The outcome of the public `GetJsonPath`: a path, the
   * `InvalidOperationException` "could not find", or (a bound of this model)
   * no path after the allowed number of resolver appends.
   */
  datatype Outcome = Found(path: string) | CouldNotFind | OutOfAttempts

  /**
   * The public `GetJsonPath(root, searchedObject, schemaResolver)`. `append`
   * is the resolver's `AppendSchema` as a change of the graph (absent when no
   * resolver is given), `isSchema` says whether the searched object is a
   * schema, and `attempts` bounds the number of retries.
   */
  function Lookup(heap: Heap, root: Value, target: ObjId, append: Option<Heap -> Heap>, isSchema: bool,
                  attempts: nat): Outcome
    decreases attempts
  {
    var p := Find(heap, target, root, "#", {}).0;
    if p.Some? then Found(p.value)
    else if append.None? || !isSchema then CouldNotFind
    else if attempts == 0 then OutOfAttempts
    else Lookup(append.value(heap), root, target, append, isSchema, attempts - 1)
  }

  /** The graph after `n` appends. */
  function Appended(heap: Heap, append: Heap -> Heap, n: nat): Heap
  {
    if n == 0 then heap else append(Appended(heap, append, n - 1))
  }

  /**
   * A path returned by the wrapper starts with "#" and leads from the root to
   * the searched object in the graph as it stood after some number of appends;
   * without a resolver, that is the graph given.
   */
  lemma {:induction false} LookupSound(heap: Heap, root: Value, target: ObjId, append: Option<Heap -> Heap>,
                                       isSchema: bool, attempts: nat)
    returns (n: nat, steps: seq<nat>, suffix: string)
    requires Lookup(heap, root, target, append, isSchema, attempts).Found?
    ensures append.None? ==> n == 0
    ensures append.Some? ==> n <= attempts
    ensures var h := if append.Some? then Appended(heap, append.value, n) else heap;
      Walk(h, root, steps) == Some(Hop(Ref(target), suffix))
    ensures Lookup(heap, root, target, append, isSchema, attempts).path == "#" + suffix
    decreases attempts
  {
    if Find(heap, target, root, "#", {}).0.Some? {
      n := 0;
      steps, suffix := FindSound(heap, target, root, "#", {});
    } else {
      var m;
      m, steps, suffix := LookupSound(append.value(heap), root, target, append, isSchema, attempts - 1);
      AppendedShift(heap, append.value, m);
      n := m + 1;
    }
  }

  /** Appending first and then n times is appending n + 1 times; stated as an equation between
      terms, so that the solver need not compare the graphs key by key. */
  lemma {:induction false} AppendedShift(heap: Heap, append: Heap -> Heap, n: nat)
    ensures Some(Appended(append(heap), append, n)) == Some(Appended(heap, append, n + 1))
  {
    if n > 0 {
      AppendedShift(heap, append, n - 1);
    }
  }

  /**
   * The wrapper fails with "could not find" only when there is no resolver to
   * retry with, and then the searched object is unreachable from the root.
   */
  lemma CouldNotFindUnreachable(heap: Heap, root: Value, target: ObjId, append: Option<Heap -> Heap>,
                                isSchema: bool, attempts: nat, steps: seq<nat>)
    requires Closed(heap) && InHeap(heap, root)
    requires Lookup(heap, root, target, append, isSchema, attempts) == CouldNotFind
    ensures append.None? || !isSchema
    ensures Walk(heap, root, steps).None? || Walk(heap, root, steps).value.reached != Ref(target)
  {
    if append.Some? && isSchema {
      NoRetryCouldNotFind(heap, root, target, append.value, attempts);
    } else {
      FindNoneUnreachable(heap, target, root, "#", steps);
    }
  }

  lemma {:induction false} NoRetryCouldNotFind(heap: Heap, root: Value, target: ObjId, append: Heap -> Heap,
                                               attempts: nat)
    ensures Lookup(heap, root, target, Some(append), true, attempts) != CouldNotFind
    decreases attempts
  {
    if Find(heap, target, root, "#", {}).0.None? && attempts > 0 {
      NoRetryCouldNotFind(append(heap), root, target, append, attempts - 1);
    }
  }

  /** Appending a schema keeps the graph closed and the root in it. */
  ghost predicate KeepsClosed(append: Heap -> Heap, root: Value)
  {
    forall h :: Closed(h) && InHeap(h, root) ==> Closed(append(h)) && InHeap(append(h), root)
  }

  lemma AppendKeepsClosed(append: Heap -> Heap, root: Value, h: Heap)
    requires KeepsClosed(append, root) && Closed(h) && InHeap(h, root)
    ensures Closed(append(h)) && InHeap(append(h), root)
  {
  }

  /** The public `GetJsonPath`, retrying after each `AppendSchema`. */
  method GetJsonPath(heap: Heap, root: Value, target: ObjId, append: Option<Heap -> Heap>, isSchema: bool,
                     attempts: nat) returns (r: Outcome)
    requires Closed(heap) && InHeap(heap, root)
    requires append.Some? ==> KeepsClosed(append.value, root)
    ensures r == Lookup(heap, root, target, append, isSchema, attempts)
  {
    var graph := heap;
    var left := attempts;
    while true
      invariant Closed(graph) && InHeap(graph, root)
      invariant Lookup(graph, root, target, append, isSchema, left) ==
                Lookup(heap, root, target, append, isSchema, attempts)
      decreases left
    {
      var search := new PathSearch(graph, target);
      var path := search.Search(root, "#");
      if path.Some? {
        return Found(path.value);
      }
      if append.None? || !isSchema {
        return CouldNotFind;
      }
      if left == 0 {
        return OutOfAttempts;
      }
      AppendKeepsClosed(append.value, root, graph);
      graph := append.value(graph);
      left := left - 1;
    }
  }

  /**
   * `GetPropertyName(property, handling)` on the member's serialised name:
   * `None` stands for the `NotSupportedException` thrown for any handling
   * other than Default and CamelCase.
   */
  function PropertyName(name: string, handling: GeneratorSettings.PropertyNameHandling, camelCase: string -> string)
    : (r: Option<string>)
    ensures r.None? <==> handling.SnakeCase?
    ensures handling.Default? ==> r == Some(name)
    ensures handling.CamelCase? ==> r == Some(camelCase(name))
  {
    match handling
    case Default => Some(name)
    case CamelCase => Some(camelCase(name))
    case _ => None
  }
}
