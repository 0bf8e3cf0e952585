/** The method registry that `JsonRpcMethods.__init__` builds from the
    attributes of the serving object: the specification of the scan, and what
    it registers and which `exposed` flags it deletes. */
module Registry {
  import opened Json

  /** What a handler call ends in: a returned value (`Null` is Python's
      `None`), a TypeError, or any other exception with its text and, when the
      exception has one, its `data` attribute. */
  datatype Outcome =
    | Returned(value: Value)
    | RaisedTypeError(message: string)
    | Raised(message: string, data: Option<Value>)

  /** A handler, called as `handler(*positional, **named)`. Handlers are user
      code; only their outcome matters here. */
  type Handler = (Value, map<string, Value>) -> Outcome

  /** A function object of the serving class. `exposed` is its `exposed`
      attribute, `None` when it has none; the scan deletes it. */
  class Attribute {
    const handler: Handler
    var exposed: Option<Value>

    constructor (handler: Handler, exposed: Option<Value>)
      ensures this.handler == handler && this.exposed == exposed
    {
      this.handler := handler;
      this.exposed := exposed;
    }
  }

  /** One entry of `dir(self)` with what `getattr` finds under it. Two names
      may be bound to the same function object. */
  datatype Binding = Binding(name: string, item: Attribute)

  /** The names the scan considers: not starting with `_`, not `default`. */
  predicate Qualifies(name: string) {
    !(|name| > 0 && name[0] == '_') && name != "default"
  }

  /** `hasattr(item, "exposed") and item.exposed` */
  predicate IsExposed(flag: Option<Value>) {
    flag.Some? && Truthy(flag.value)
  }

  function Items(attrs: seq<Binding>): set<Attribute> {
    set i | 0 <= i < |attrs| :: attrs[i].item
  }

  /** The `exposed` attributes of a set of function objects. */
  function Flags(items: set<Attribute>): map<Attribute, Option<Value>>
    reads items
  {
    map a | a in items :: a.exposed
  }

  /** The registry built so far and the `exposed` attributes as they stand. */
  datatype Scanned = Scanned(registry: map<string, Handler>, flags: map<Attribute, Option<Value>>)

  /** One iteration of the scan. */
  function Visit(s: Scanned, b: Binding): (r: Scanned)
    ensures r.flags.Keys == s.flags.Keys
  {
    if Qualifies(b.name) && b.item in s.flags && IsExposed(s.flags[b.item]) then
      Scanned(s.registry[b.name := b.item.handler], s.flags[b.item := None])
    else
      s
  }

  /** The scan of `JsonRpcMethods.__init__` over `attrs`, in order, starting
      from the `exposed` attributes `flags`. */
  function Scan(attrs: seq<Binding>, flags: map<Attribute, Option<Value>>): (r: Scanned)
    ensures r.flags.Keys == flags.Keys
    decreases |attrs|
  {
    if attrs == [] then Scanned(map[], flags)
    else Visit(Scan(attrs[..|attrs| - 1], flags), attrs[|attrs| - 1])
  }

  /** Only names that qualify are registered: none starting with `_`, and
      never `default`. */
  lemma {:induction false} ScanRegistersOnlyQualifyingNames(attrs: seq<Binding>, flags: map<Attribute, Option<Value>>)
    ensures forall name :: name in Scan(attrs, flags).registry ==> Qualifies(name)
    decreases |attrs|
  {
    if attrs != [] {
      ScanRegistersOnlyQualifyingNames(attrs[..|attrs| - 1], flags);
    }
  }

  /** The scan of one more binding is one more visit. */
  lemma ScanStep(attrs: seq<Binding>, i: nat, flags: map<Attribute, Option<Value>>)
    requires i < |attrs|
    ensures Scan(attrs[..i + 1], flags) == Visit(Scan(attrs[..i], flags), attrs[i])
  {
    assert attrs[..i + 1][..i] == attrs[..i];
  }

  /** Some qualifying name among the first `k` bindings is bound to `a`. */
  ghost predicate ClaimedBefore(attrs: seq<Binding>, k: int, a: Attribute) {
    exists j :: 0 <= j < k && j < |attrs| && attrs[j].item == a && Qualifies(attrs[j].name)
  }

  /** The `i`th binding is the first qualifying name bound to an exposed
      function object. */
  ghost predicate FirstExposedName(attrs: seq<Binding>, flags: map<Attribute, Option<Value>>, i: int)
    requires 0 <= i < |attrs|
  {
    && Qualifies(attrs[i].name)
    && attrs[i].item in flags
    && IsExposed(flags[attrs[i].item])
    && !ClaimedBefore(attrs, i, attrs[i].item)
  }

  ghost predicate DistinctNames(attrs: seq<Binding>) {
    forall i, j :: 0 <= i < j < |attrs| ==> attrs[i].name != attrs[j].name
  }

  /** No two qualifying names are bound to one function object. */
  ghost predicate NoAliases(attrs: seq<Binding>) {
    forall i, j :: 0 <= i < j < |attrs| && Qualifies(attrs[i].name) && Qualifies(attrs[j].name) ==>
      attrs[i].item != attrs[j].item
  }

  lemma ClaimedBeforeLast(attrs: seq<Binding>, a: Attribute)
    requires attrs != []
    ensures var n := |attrs| - 1;
      ClaimedBefore(attrs, |attrs|, a) <==>
        ClaimedBefore(attrs[..n], n, a) || (attrs[n].item == a && Qualifies(attrs[n].name))
  {
  }

  /** The scan deletes the `exposed` flag of exactly those function objects
      that were exposed and are bound to some qualifying name; every other
      flag, `default`'s among them, is left as it was. */
  lemma {:induction false} ScanClearsFlags(attrs: seq<Binding>, flags: map<Attribute, Option<Value>>)
    requires Items(attrs) <= flags.Keys
    ensures Scan(attrs, flags).flags.Keys == flags.Keys
    ensures forall a :: a in flags ==>
      Scan(attrs, flags).flags[a] ==
        if ClaimedBefore(attrs, |attrs|, a) && IsExposed(flags[a]) then None else flags[a]
    decreases |attrs|
  {
    if attrs != [] {
      var n := |attrs| - 1;
      var p, b := attrs[..n], attrs[n];
      assert Items(p) <= Items(attrs) by {
        forall a | a in Items(p) ensures a in Items(attrs) {
          var j :| 0 <= j < |p| && p[j].item == a;
          assert attrs[j] == p[j];
        }
      }
      assert b.item in Items(attrs);
      ScanClearsFlags(p, flags);
      forall a | a in flags
        ensures Scan(attrs, flags).flags[a] ==
          if ClaimedBefore(attrs, |attrs|, a) && IsExposed(flags[a]) then None else flags[a]
      {
        ClaimedBeforeLast(attrs, a);
      }
    }
  }

  /** `registry` holds exactly one entry per qualifying name of `attrs` that
      is the first qualifying name bound to an exposed function object, and
      maps it to that object. */
  ghost predicate HoldsFirstExposedNames(attrs: seq<Binding>, flags: map<Attribute, Option<Value>>,
                                         registry: map<string, Handler>)
  {
    && (forall i :: 0 <= i < |attrs| ==> (attrs[i].name in registry <==> FirstExposedName(attrs, flags, i)))
    && (forall i :: 0 <= i < |attrs| && attrs[i].name in registry ==> registry[attrs[i].name] == attrs[i].item.handler)
    && (forall name :: name in registry ==> exists i :: 0 <= i < |attrs| && attrs[i].name == name)
  }

  lemma ClaimedBeforeAppend(p: seq<Binding>, b: Binding, k: int, a: Attribute)
    requires k <= |p|
    ensures ClaimedBefore(p, k, a) <==> ClaimedBefore(p + [b], k, a)
  {
    if ClaimedBefore(p + [b], k, a) {
      var j :| 0 <= j < k && j < |p + [b]| && (p + [b])[j].item == a && Qualifies((p + [b])[j].name);
      assert p[j] == (p + [b])[j];
    }
    if ClaimedBefore(p, k, a) {
      var j :| 0 <= j < k && j < |p| && p[j].item == a && Qualifies(p[j].name);
      assert p[j] == (p + [b])[j];
    }
  }

  lemma VisitKeepsFirstExposedNames(p: seq<Binding>, b: Binding, flags: map<Attribute, Option<Value>>, s: Scanned)
    requires HoldsFirstExposedNames(p, flags, s.registry)
    requires b.item in flags && b.item in s.flags
    requires s.flags[b.item] == if ClaimedBefore(p, |p|, b.item) && IsExposed(flags[b.item]) then None else flags[b.item]
    requires DistinctNames(p + [b])
    ensures HoldsFirstExposedNames(p + [b], flags, Visit(s, b).registry)
  {
    var attrs := p + [b];
    var n := |p|;
    var r := Visit(s, b).registry;
    assert attrs[n] == b;
    ClaimedBeforeAppend(p, b, n, b.item);
    var visited := Qualifies(b.name) && IsExposed(s.flags[b.item]);
    assert visited <==> FirstExposedName(attrs, flags, n);
    assert r == if visited then s.registry[b.name := b.item.handler] else s.registry;
    forall j | 0 <= j < |p| ensures p[j].name != b.name {
      assert attrs[j] == p[j];
    }
    assert b.name !in s.registry;
    forall i | 0 <= i < |attrs|
      ensures attrs[i].name in r <==> FirstExposedName(attrs, flags, i)
      ensures attrs[i].name in r ==> r[attrs[i].name] == attrs[i].item.handler
    {
      if i < n {
        assert attrs[i] == p[i];
        assert attrs[i].name != b.name;
        ClaimedBeforeAppend(p, b, i, p[i].item);
        assert FirstExposedName(p, flags, i) <==> FirstExposedName(attrs, flags, i);
      }
    }
    forall name | name in r
      ensures exists i :: 0 <= i < |attrs| && attrs[i].name == name
    {
      if name == b.name {
        assert attrs[n].name == name;
      } else {
        var j :| 0 <= j < |p| && p[j].name == name;
        assert attrs[j] == p[j];
      }
    }
  }

  /** The registry the scan builds holds exactly the first qualifying name
      bound to each exposed function object. */
  lemma {:induction false} ScanRegistersFirstExposedNames(attrs: seq<Binding>, flags: map<Attribute, Option<Value>>)
    requires Items(attrs) <= flags.Keys
    requires DistinctNames(attrs)
    ensures HoldsFirstExposedNames(attrs, flags, Scan(attrs, flags).registry)
    decreases |attrs|
  {
    if attrs != [] {
      var n := |attrs| - 1;
      var p, b := attrs[..n], attrs[n];
      assert attrs == p + [b];
      assert Items(p) <= Items(attrs) by {
        forall a | a in Items(p) ensures a in Items(attrs) {
          var j :| 0 <= j < |p| && p[j].item == a;
          assert attrs[j] == p[j];
        }
      }
      assert b.item in Items(attrs);
      ScanRegistersFirstExposedNames(p, flags);
      ScanClearsFlags(p, flags);
      VisitKeepsFirstExposedNames(p, b, flags, Scan(p, flags));
    }
  }

  /** Without aliases the registry is exactly the qualifying names whose
      function objects are exposed. */
  lemma ScanRegistersExposedNames(attrs: seq<Binding>, flags: map<Attribute, Option<Value>>)
    requires Items(attrs) <= flags.Keys
    requires DistinctNames(attrs) && NoAliases(attrs)
    ensures forall i :: 0 <= i < |attrs| ==>
      (attrs[i].name in Scan(attrs, flags).registry <==>
        Qualifies(attrs[i].name) && IsExposed(flags[attrs[i].item]))
  {
    ScanRegistersFirstExposedNames(attrs, flags);
    forall i | 0 <= i < |attrs| && Qualifies(attrs[i].name)
      ensures !ClaimedBefore(attrs, i, attrs[i].item)
    {
    }
    forall i | 0 <= i < |attrs| ensures attrs[i].item in flags {
      assert attrs[i].item in Items(attrs);
    }
  }

  /** A scan that finds no qualifying name bound to an exposed function object
      registers nothing and changes no flag. */
  lemma {:induction false} ScanOfUnexposed(attrs: seq<Binding>, flags: map<Attribute, Option<Value>>)
    requires forall i :: 0 <= i < |attrs| && Qualifies(attrs[i].name) && attrs[i].item in flags ==>
      !IsExposed(flags[attrs[i].item])
    ensures Scan(attrs, flags) == Scanned(map[], flags)
    decreases |attrs|
  {
    if attrs != [] {
      var n := |attrs| - 1;
      forall i | 0 <= i < n && Qualifies(attrs[..n][i].name) && attrs[..n][i].item in flags
        ensures !IsExposed(flags[attrs[..n][i].item])
      {
        assert attrs[..n][i] == attrs[i];
      }
      ScanOfUnexposed(attrs[..n], flags);
    }
  }

  /** The deleted flags belong to the shared function objects, so scanning
      the same attributes again, as a second instance of the same class does,
      registers nothing. */
  lemma RescanRegistersNothing(attrs: seq<Binding>, flags: map<Attribute, Option<Value>>)
    requires Items(attrs) <= flags.Keys
    ensures Scan(attrs, Scan(attrs, flags).flags).registry == map[]
  {
    ScanClearsFlags(attrs, flags);
    var after := Scan(attrs, flags).flags;
    forall i | 0 <= i < |attrs| && Qualifies(attrs[i].name) && attrs[i].item in after
      ensures !IsExposed(after[attrs[i].item])
    {
      var a := attrs[i].item;
      assert a in Items(attrs);
      if IsExposed(flags[a]) {
        assert ClaimedBefore(attrs, |attrs|, a);
      }
    }
    ScanOfUnexposed(attrs, after);
  }
}
