/** What the count of type nodes means, in terms of the types alone.

    Anything a checker's output is made of is an item. An item has parts of its own, found by its
    destructors, and may keep further parts at a shared address. A position is a path of part
    numbers, and a node is a position at which a type or a scheme type stands. */
module TypePositions {
  import opened Options
  import opened SharedTerms
  import opened TypeNodes

  datatype Item =
    | AType(ty: Type) | ASignature(sig: CallableType) | AnExport(export_: Export)
    | ASchemeType(schemeType: SchemeType) | ACallee(callee: Callee) | AParam(param: Param)
    | AnExpectation(expectation: Expectation) | ASchema(schema: Schema) | AnInstance(instance: Instance)
    | AnArgument(argument: Argument) | AnApplication(application: Application) | ATypeScheme(scheme: TypeScheme)
    | AModule(at: nat, exports: seq<Export>)

  predicate IsNode(x: Item) { x.AType? || x.ASchemeType? }

  function Types(tys: seq<Type>): seq<Item> { seq(|tys|, i requires 0 <= i < |tys| => AType(tys[i])) }

  function SchemeTypes(tys: seq<SchemeType>): seq<Item> {
    seq(|tys|, i requires 0 <= i < |tys| => ASchemeType(tys[i]))
  }

  function Exports(exports: seq<Export>): seq<Item> {
    seq(|exports|, i requires 0 <= i < |exports| => AnExport(exports[i]))
  }

  function Params(params: seq<Param>): seq<Item> { seq(|params|, i requires 0 <= i < |params| => AParam(params[i])) }

  function Schemas(schemas: seq<Schema>): seq<Item> {
    seq(|schemas|, i requires 0 <= i < |schemas| => ASchema(schemas[i]))
  }

  function Instances(instances: seq<Instance>): seq<Item> {
    seq(|instances|, i requires 0 <= i < |instances| => AnInstance(instances[i]))
  }

  function Arguments(arguments: seq<Argument>): seq<Item> {
    seq(|arguments|, i requires 0 <= i < |arguments| => AnArgument(arguments[i]))
  }

  function Applications(applications: seq<Application>): seq<Item> {
    seq(|applications|, i requires 0 <= i < |applications| => AnApplication(applications[i]))
  }

  /** The parts an item owns. */
  function Parts(x: Item): seq<Item> {
    match x
    case AType(ty) =>
      if ty.List? || ty.Stream? || ty.Set? || ty.Optional? then [AType(ty.inner)]
      else if ty.Map? || ty.Result? then [AType(ty.left), AType(ty.right)]
      else if ty.Validated? then [AType(ty.base)]
      else if ty.Union? then Types(ty.members)
      else []
    case ASignature(sig) => Types(sig.params) + [AType(sig.result)]
    case AnExport(export_) =>
      if export_.Value? then [AType(export_.ty)]
      else if export_.Function? then [ASignature(export_.sig)]
      else []
    case ASchemeType(ty) =>
      if ty.Ground? then [AType(ty.ty)]
      else if ty.SchemeList? || ty.SchemeStream? || ty.SchemeSet? || ty.SchemeOptional? || ty.SchemeValidated? then
        [ASchemeType(ty.inner)]
      else if ty.SchemeMap? || ty.SchemeResult? then [ASchemeType(ty.left), ASchemeType(ty.right)]
      else if ty.SchemeRecord? then SchemeTypes(ty.fields)
      else if ty.SchemeUnion? then SchemeTypes(ty.members)
      else []
    case ACallee(callee) =>
      Params(callee.params) + [ASchemeType(callee.result), AnExpectation(callee.expectation)]
    case AParam(param) => [ASchemeType(param.ty), AnExpectation(param.expectation)]
    case AnExpectation(expectation) => if expectation.Expects? then [ASchema(expectation.schema)] else []
    case ASchema(schema) => Instances(schema.instances)
    case AnInstance(instance) => Arguments(instance.arguments)
    case AnArgument(argument) =>
      if argument.OfType? then [AType(argument.ty)] else [ASchemeType(argument.scheme)]
    case AnApplication(application) => SchemeTypes(application.types)
    case ATypeScheme(_) => []
    case AModule(_, _) => []
  }

  /** The address of what an item shares, and the parts kept there. */
  function Kept(x: Item): Option<(nat, seq<Item>)> {
    if x.AType? && x.ty.Record? then Some((x.ty.at, Types(x.ty.fields)))
    else if x.AType? && x.ty.Module? then Some((x.ty.at, Exports(x.ty.exports)))
    else if x.AType? && x.ty.Callable? then Some((x.ty.at, [ASignature(x.ty.sig)]))
    else if x.ASchemeType? && x.schemeType.Monotype? then Some((x.schemeType.at, [ACallee(x.schemeType.callee)]))
    else if x.ASchema? then Some((x.schema.at, Schemas(x.schema.children)))
    else if x.ATypeScheme? then Some((x.scheme.at, [ACallee(x.scheme.callee)] + Applications(x.scheme.applications)))
    else if x.AModule? then Some((x.at, Exports(x.exports)))
    else None
  }

  /** What stands at a position of an item. */
  function At(x: Item, path: seq<nat>): Option<Item>
    decreases |path|
  {
    if path == [] then Some(x)
    else if path[0] < |Parts(x)| then At(Parts(x)[path[0]], path[1..])
    else None
  }

  /** What stands at a position of one of some items. */
  function AtAny(xs: seq<Item>, path: seq<nat>): Option<Item> {
    if path != [] && path[0] < |xs| then At(xs[path[0]], path[1..]) else None
  }

  /** A set of exactly the nodes of some items, outside of what they share. */
  ghost predicate AreNodes(xs: seq<Item>, nodes: set<seq<nat>>) {
    forall p :: p in nodes <==> AtAny(xs, p).Some? && IsNode(AtAny(xs, p).value)
  }

  /** The other item is a part, or kept at the shared address. */
  predicate Refers(x: Item, y: Item) {
    y in Parts(x) || (Kept(x).Some? && y in Kept(x).value.1)
  }

  ghost predicate Chain(c: seq<Item>) { c != [] && forall i :: 0 <= i < |c| - 1 ==> Refers(c[i], c[i + 1]) }

  /** The other item can be reached, through shared parts too. */
  ghost predicate Reached(x: Item, y: Item) { exists c :: Chain(c) && c[0] == x && c[|c| - 1] == y }

  ghost predicate ReachedFrom(xs: seq<Item>, y: Item) { exists x :: x in xs && Reached(x, y) }

  /** A shared address that can be reached. */
  ghost predicate AddressReached(xs: seq<Item>, a: nat) {
    exists y :: ReachedFrom(xs, y) && Kept(y).Some? && Kept(y).value.0 == a
  }

  /** What each address keeps. */
  type Store = map<nat, seq<Item>>

  /** Whatever is reached keeps at its address what is there. */
  ghost predicate KeptIn(store: Store, x: Item) {
    Kept(x).Some? ==> Kept(x).value.0 in store && store[Kept(x).value.0] == Kept(x).value.1
  }

  ghost predicate Stored(store: Store, xs: seq<Item>) {
    forall y :: ReachedFrom(xs, y) ==> KeptIn(store, y)
  }

  // ----- Items as terms -----

  function Terms(x: Item): seq<Term> {
    match x
    case AType(ty) => [TypeTerm(ty)]
    case ASignature(sig) => CallableTerms(sig)
    case AnExport(export_) => ExportTerms(export_)
    case ASchemeType(ty) => [SchemeTerm(ty)]
    case ACallee(callee) => CalleeTerms(callee)
    case AParam(param) => ParamTerms(param)
    case AnExpectation(expectation) => ExpectationTerms(expectation)
    case ASchema(schema) => SchemaTerms(schema)
    case AnInstance(instance) => InstanceTerms(instance)
    case AnArgument(argument) => [ArgumentTerm(argument)]
    case AnApplication(application) => SchemeTerms(application.types)
    case ATypeScheme(scheme) => [TypeSchemeTerm(scheme)]
    case AModule(at, exports) => [Shared(at, ExportsTerms(exports))]
  }

  function TermsOf(xs: seq<Item>): seq<Term> {
    if xs == [] then [] else Terms(xs[0]) + TermsOf(xs[1..])
  }

  /** The parts, then what is shared, and around both a node if the item is one. */
  function Built(x: Item): seq<Term> {
    var inside := TermsOf(Parts(x))
                  + match Kept(x) { case None => [] case Some(kept) => [Shared(kept.0, TermsOf(kept.1))] };
    if IsNode(x) then [Node(1, inside)] else inside
  }

  lemma {:induction false} TermsOfJoins(xs: seq<Item>, ys: seq<Item>)
    ensures TermsOf(xs + ys) == TermsOf(xs) + TermsOf(ys)
  {
    if xs == [] {
      assert xs + ys == ys;
    } else {
      assert (xs + ys)[1..] == xs[1..] + ys;
      TermsOfJoins(xs[1..], ys);
    }
  }

  lemma TermsOfOne(x: Item)
    ensures TermsOf([x]) == Terms(x)
  {
    assert [x][1..] == [];
    assert Terms(x) + [] == Terms(x);
  }

  lemma TermsOfTwo(x: Item, y: Item)
    ensures TermsOf([x, y]) == Terms(x) + Terms(y)
  {
    assert [x, y] == [x] + [y];
    TermsOfJoins([x], [y]);
    TermsOfOne(x);
    TermsOfOne(y);
  }

  lemma {:induction false} TypesAsTerms(tys: seq<Type>)
    ensures TermsOf(Types(tys)) == TypeTerms(tys)
  {
    if tys != [] {
      assert Types(tys)[1..] == Types(tys[1..]);
      TypesAsTerms(tys[1..]);
    }
  }

  lemma {:induction false} SchemeTypesAsTerms(tys: seq<SchemeType>)
    ensures TermsOf(SchemeTypes(tys)) == SchemeTerms(tys)
  {
    if tys != [] {
      assert SchemeTypes(tys)[1..] == SchemeTypes(tys[1..]);
      SchemeTypesAsTerms(tys[1..]);
    }
  }

  lemma {:induction false} ExportsAsTerms(exports: seq<Export>)
    ensures TermsOf(Exports(exports)) == ExportsTerms(exports)
  {
    if exports != [] {
      assert Exports(exports)[1..] == Exports(exports[1..]);
      ExportsAsTerms(exports[1..]);
    }
  }

  lemma {:induction false} ParamsAsTerms(params: seq<Param>)
    ensures TermsOf(Params(params)) == ParamsTerms(params)
  {
    if params != [] {
      assert Params(params)[1..] == Params(params[1..]);
      ParamsAsTerms(params[1..]);
    }
  }

  lemma {:induction false} SchemasAsTerms(schemas: seq<Schema>)
    ensures TermsOf(Schemas(schemas)) == SchemasTerms(schemas)
  {
    if schemas != [] {
      assert Schemas(schemas)[1..] == Schemas(schemas[1..]);
      SchemasAsTerms(schemas[1..]);
    }
  }

  lemma {:induction false} InstancesAsTerms(instances: seq<Instance>)
    ensures TermsOf(Instances(instances)) == InstancesTerms(instances)
  {
    if instances != [] {
      assert Instances(instances)[1..] == Instances(instances[1..]);
      InstancesAsTerms(instances[1..]);
    }
  }

  lemma {:induction false} ArgumentsAsTerms(arguments: seq<Argument>)
    ensures TermsOf(Arguments(arguments)) == ArgumentsTerms(arguments)
  {
    if arguments != [] {
      assert Arguments(arguments)[1..] == Arguments(arguments[1..]);
      ArgumentsAsTerms(arguments[1..]);
    }
  }

  lemma {:induction false} ApplicationsAsTerms(applications: seq<Application>)
    ensures TermsOf(Applications(applications)) == ApplicationsTerms(applications)
  {
    if applications != [] {
      assert Applications(applications)[1..] == Applications(applications[1..]);
      ApplicationsAsTerms(applications[1..]);
    }
  }

  lemma TypeIsBuilt(ty: Type)
    ensures Terms(AType(ty)) == Built(AType(ty))
  {
    hide SchemeTerm, ExportTerms, CallableTerms, SchemeTypes, Params, Schemas, Instances, Arguments, Applications;
    var x := AType(ty);
    assert TermsOf([]) == [];
    var inside := TermsOf(Parts(x));
    assert inside + [] == inside;
    var shared := match Kept(x) { case None => [] case Some(kept) => [Shared(kept.0, TermsOf(kept.1))] };
    assert [] + shared == shared;
    if |Parts(x)| == 1 {
      TermsOfOne(Parts(x)[0]);
    }
    if ty.Map? || ty.Result? {
      TermsOfTwo(AType(ty.left), AType(ty.right));
      assert inside == [TypeTerm(ty.left), TypeTerm(ty.right)];
    } else if ty.Union? {
      TypesAsTerms(ty.members);
    } else if ty.Record? {
      TypesAsTerms(ty.fields);
    } else if ty.Module? {
      ExportsAsTerms(ty.exports);
    } else if ty.Callable? {
      TermsOfOne(ASignature(ty.sig));
    }
  }

  lemma SchemeTypeIsBuilt(ty: SchemeType)
    ensures Terms(ASchemeType(ty)) == Built(ASchemeType(ty))
  {
    hide TypeTerm, CalleeTerms, ParamsTerms, ExpectationTerms, Types, Exports, Params, Schemas, Instances, Arguments,
         Applications;
    var x := ASchemeType(ty);
    assert TermsOf([]) == [];
    var inside := TermsOf(Parts(x));
    assert inside + [] == inside;
    var shared := match Kept(x) { case None => [] case Some(kept) => [Shared(kept.0, TermsOf(kept.1))] };
    assert [] + shared == shared;
    if |Parts(x)| == 1 {
      TermsOfOne(Parts(x)[0]);
    }
    if ty.SchemeMap? || ty.SchemeResult? {
      TermsOfTwo(ASchemeType(ty.left), ASchemeType(ty.right));
      assert inside == [SchemeTerm(ty.left), SchemeTerm(ty.right)];
    } else if ty.SchemeRecord? {
      SchemeTypesAsTerms(ty.fields);
    } else if ty.SchemeUnion? {
      SchemeTypesAsTerms(ty.members);
    } else if ty.Monotype? {
      TermsOfOne(ACallee(ty.callee));
    }
  }

  lemma CalleeIsBuilt(callee: Callee)
    ensures Terms(ACallee(callee)) == Built(ACallee(callee))
  {
    hide TermsOf, ParamsTerms, SchemeTerm, ExpectationTerms;
    var x, result, expectation := ACallee(callee), ASchemeType(callee.result), AnExpectation(callee.expectation);
    TermsOfJoins(Params(callee.params), [result, expectation]);
    ParamsAsTerms(callee.params);
    TermsOfTwo(result, expectation);
    CalleeInside(TermsOf(Parts(x)), ParamsTerms(callee.params), Terms(result), Terms(expectation));
  }

  lemma CalleeInside(inside: seq<Term>, params: seq<Term>, result: seq<Term>, expectation: seq<Term>)
    requires inside == params + (result + expectation)
    ensures inside + [] == params + result + expectation
  {
  }

  lemma SignatureIsBuilt(sig: CallableType)
    ensures Terms(ASignature(sig)) == Built(ASignature(sig))
  {
    TermsOfJoins(Types(sig.params), [AType(sig.result)]);
    TypesAsTerms(sig.params);
    TermsOfOne(AType(sig.result));
    var inside := TermsOf(Parts(ASignature(sig)));
    assert inside + [] == inside;
  }

  lemma TypeSchemeIsBuilt(scheme: TypeScheme)
    ensures Terms(ATypeScheme(scheme)) == Built(ATypeScheme(scheme))
  {
    TermsOfJoins([ACallee(scheme.callee)], Applications(scheme.applications));
    TermsOfOne(ACallee(scheme.callee));
    ApplicationsAsTerms(scheme.applications);
    assert TermsOf([]) == [];
    assert [] + [TypeSchemeTerm(scheme)] == [TypeSchemeTerm(scheme)];
  }

  /** An item's terms are built of the terms of its parts. */
  lemma ItemsAreBuilt(x: Item)
    ensures Terms(x) == Built(x)
  {
    hide TypeTerm, SchemeTerm, Types, Exports, Params, Schemas, Applications;
    var inside := TermsOf(Parts(x));
    assert inside + [] == inside && TermsOf([]) == [];
    match x
    case AType(ty) => TypeIsBuilt(ty);
    case ASchemeType(ty) => SchemeTypeIsBuilt(ty);
    case ACallee(callee) => CalleeIsBuilt(callee);
    case ASignature(sig) => SignatureIsBuilt(sig);
    case AnExport(export_) =>
      if export_.Value? || export_.Function? {
        TermsOfOne(Parts(x)[0]);
      }
    case AParam(param) => TermsOfTwo(ASchemeType(param.ty), AnExpectation(param.expectation));
    case AnExpectation(expectation) =>
      if expectation.Expects? {
        TermsOfOne(ASchema(expectation.schema));
      }
    case ASchema(schema) =>
      InstancesAsTerms(schema.instances);
      SchemasAsTerms(schema.children);
    case AnInstance(instance) => ArgumentsAsTerms(instance.arguments);
    case AnArgument(argument) => TermsOfOne(Parts(x)[0]);
    case AnApplication(application) => SchemeTypesAsTerms(application.types);
    case ATypeScheme(scheme) => TypeSchemeIsBuilt(scheme);
    case AModule(_, exports) => ExportsAsTerms(exports);
  }

  // ----- Parts are smaller -----

  lemma {:induction false} SizeJoins(a: seq<Term>, b: seq<Term>)
    ensures Size(a + b) == Size(a) + Size(b)
  {
    if a == [] {
      assert a + b == b;
    } else {
      assert (a + b)[1..] == a[1..] + b;
      SizeJoins(a[1..], b);
    }
  }

  /** Items that own just one thing have it below them. */
  function Rank(x: Item): nat {
    match x
    case AType(_) => 0
    case ASchemeType(_) => 0
    case ASignature(_) => 1
    case AnArgument(_) => 1
    case AnApplication(_) => 1
    case AnExport(_) => 2
    case AnInstance(_) => 2
    case ASchema(_) => 3
    case AnExpectation(_) => 4
    case AParam(_) => 5
    case ACallee(_) => 6
    case ATypeScheme(_) => 7
    case AModule(_, _) => 7
  }

  function Measure(x: Item): nat { 8 * Size(Terms(x)) + Rank(x) }

  ghost predicate Below(xs: seq<Item>, bound: nat) { forall i :: 0 <= i < |xs| ==> Measure(xs[i]) < bound }

  lemma {:induction false} MemberSize(xs: seq<Item>, i: nat)
    requires i < |xs|
    ensures Size(Terms(xs[i])) <= Size(TermsOf(xs))
  {
    SizeJoins(Terms(xs[0]), TermsOf(xs[1..]));
    if i > 0 {
      MemberSize(xs[1..], i - 1);
    }
  }

  lemma SizeOfBuilt(x: Item)
    ensures Size(Terms(x)) >= Size(TermsOf(Parts(x))) + if IsNode(x) then 1 else 0
    ensures Kept(x).Some? ==> Size(Terms(x)) > Size(TermsOf(Kept(x).value.1))
  {
    hide Parts, Kept, Terms;
    ItemsAreBuilt(x);
    var shared := match Kept(x) { case None => [] case Some(kept) => [Shared(kept.0, TermsOf(kept.1))] };
    var inside := TermsOf(Parts(x)) + shared;
    SizeJoins(TermsOf(Parts(x)), shared);
    assert [Node(1, inside)][1..] == [];
  }

  lemma PartsRankLower(x: Item, i: nat)
    requires i < |Parts(x)|
    ensures IsNode(x) || Rank(Parts(x)[i]) < Rank(x)
  {
  }

  lemma PartsAreSmaller(x: Item)
    ensures Below(Parts(x), Measure(x))
    ensures Kept(x).Some? ==> Below(Kept(x).value.1, Measure(x))
  {
    hide Parts, Kept, Terms;
    SizeOfBuilt(x);
    forall i | 0 <= i < |Parts(x)| ensures Measure(Parts(x)[i]) < Measure(x) {
      MemberSize(Parts(x), i);
      PartsRankLower(x, i);
    }
    if Kept(x).Some? {
      var kept := Kept(x).value.1;
      forall i | 0 <= i < |kept| ensures Measure(kept[i]) < Measure(x) {
        MemberSize(kept, i);
      }
    }
  }

  // ----- Counting positions -----

  /** The nodes of an item, as positions. */
  ghost function Nodes(x: Item): (nodes: set<seq<nat>>)
    ensures forall p :: p in nodes <==> At(x, p).Some? && IsNode(At(x, p).value)
    decreases Measure(x), 1, 0
  {
    PartsAreSmaller(x);
    (if IsNode(x) then {[]} else {}) + NodesFrom(Parts(x), 0, Measure(x))
  }

  ghost function NodesFrom(xs: seq<Item>, i: nat, bound: nat): (nodes: set<seq<nat>>)
    requires i <= |xs| && Below(xs, bound)
    ensures forall p :: p in nodes <==>
                          AtAny(xs, p).Some? && IsNode(AtAny(xs, p).value) && i <= p[0]
    decreases bound, 0, |xs| - i
  {
    if i == |xs| then {}
    else
      hide At, Parts;
      InFront(xs, i, Nodes(xs[i]));
      Prefixed(i, Nodes(xs[i])) + NodesFrom(xs, i + 1, bound)
  }

  /** Positions inside of the part with a number. */
  ghost function Prefixed(i: nat, positions: set<seq<nat>>): set<seq<nat>> { set p | p in positions :: [i] + p }

  lemma InFront(xs: seq<Item>, i: nat, nodes: set<seq<nat>>)
    requires i < |xs| && forall p :: p in nodes <==> At(xs[i], p).Some? && IsNode(At(xs[i], p).value)
    ensures forall p :: p in Prefixed(i, nodes) <==>
                          AtAny(xs, p).Some? && IsNode(AtAny(xs, p).value) && i == p[0]
  {
    hide At, Parts;
    forall p ensures p in Prefixed(i, nodes) <==>
                       AtAny(xs, p).Some? && IsNode(AtAny(xs, p).value) && i == p[0]
    {
      if p != [] && p[0] == i {
        assert p == [i] + p[1..];
        assert forall q: seq<nat> :: ([i] + q)[1..] == q;
      }
    }
  }

  lemma {:induction false} AsManyPrefixed(i: nat, s: set<seq<nat>>)
    ensures |Prefixed(i, s)| == |s|
  {
    if s != {} {
      var p :| p in s;
      AsManyPrefixed(i, s - {p});
      var all, others := Prefixed(i, s), Prefixed(i, s - {p});
      assert forall q: seq<nat> :: ([i] + q)[1..] == q;
      assert [i] + p !in others;
      assert all == others + {[i] + p};
    }
  }

  lemma OwnedBuilt(x: Item)
    ensures Owned(Terms(x)) == Owned(TermsOf(Parts(x))) + if IsNode(x) then 1 else 0
  {
    hide Parts, Kept, Terms, TermsOf;
    ItemsAreBuilt(x);
    var shared := match Kept(x) { case None => [] case Some(kept) => [Shared(kept.0, TermsOf(kept.1))] };
    Joined(TermsOf(Parts(x)), shared);
    assert Owned([]) == 0 && shared != [] ==> shared[1..] == [];
    assert Owned(shared) == 0;
    assert [Node(1, TermsOf(Parts(x)) + shared)][1..] == [];
  }

  lemma {:induction false} NodesAreOwned(x: Item)
    ensures |Nodes(x)| == Owned(Terms(x))
    decreases Measure(x), 1, 0
  {
    hide Parts, Terms, TermsOf, Owned, At, AtAny;
    PartsAreSmaller(x);
    NodesFromAreOwned(Parts(x), 0, Measure(x));
    OwnedBuilt(x);
    assert Parts(x)[0..] == Parts(x);
    NoRootInside(Parts(x), Measure(x));
  }

  lemma NoRootInside(xs: seq<Item>, bound: nat)
    requires Below(xs, bound)
    ensures [] !in NodesFrom(xs, 0, bound)
  {
  }

  lemma OnePartMore(xs: seq<Item>, i: nat, bound: nat)
    requires i < |xs| && Below(xs, bound)
    ensures |NodesFrom(xs, i, bound)| == |Nodes(xs[i])| + |NodesFrom(xs, i + 1, bound)|
  {
    hide Nodes, At, IsNode, Measure;
    AsManyPrefixed(i, Nodes(xs[i]));
    var here, rest := Prefixed(i, Nodes(xs[i])), NodesFrom(xs, i + 1, bound);
    assert here !! rest;
    assert NodesFrom(xs, i, bound) == here + rest;
  }

  lemma {:induction false} NodesFromAreOwned(xs: seq<Item>, i: nat, bound: nat)
    requires i <= |xs| && Below(xs, bound)
    ensures |NodesFrom(xs, i, bound)| == Owned(TermsOf(xs[i..]))
    decreases bound, 0, |xs| - i
  {
    hide *;
    if i < |xs| {
      BelowAt(xs, i, bound);
      NodesAreOwned(xs[i]);
      NodesFromAreOwned(xs, i + 1, bound);
      TermsFrom(xs, i);
      Joined(Terms(xs[i]), TermsOf(xs[i + 1..]));
      OnePartMore(xs, i, bound);
    } else {
      NoPartsLeft(xs, bound);
    }
  }

  lemma BelowAt(xs: seq<Item>, i: nat, bound: nat)
    requires i < |xs| && Below(xs, bound)
    ensures Measure(xs[i]) < bound
  {
  }

  lemma TermsFrom(xs: seq<Item>, i: nat)
    requires i < |xs|
    ensures TermsOf(xs[i..]) == Terms(xs[i]) + TermsOf(xs[i + 1..])
  {
    assert xs[i..][1..] == xs[i + 1..];
  }

  lemma NoPartsLeft(xs: seq<Item>, bound: nat)
    requires Below(xs, bound)
    ensures |NodesFrom(xs, |xs|, bound)| == Owned(TermsOf(xs[|xs|..]))
  {
    assert xs[|xs|..] == [];
  }

  // ----- Shared parts -----

  lemma ReachedSelf(x: Item)
    ensures Reached(x, x)
  {
    assert Chain([x]);
  }

  lemma ReachedStep(x: Item, z: Item, y: Item)
    requires Refers(x, z) && Reached(z, y)
    ensures Reached(x, y)
  {
    var c :| Chain(c) && c[0] == z && c[|c| - 1] == y;
    var d := [x] + c;
    forall i | 0 <= i < |d| - 1 ensures Refers(d[i], d[i + 1]) {
      assert i > 0 ==> Refers(c[i - 1], c[i]);
    }
    assert Chain(d) && d[0] == x && d[|d| - 1] == y;
  }

  lemma ReachedSplit(x: Item, y: Item)
    requires Reached(x, y) && x != y
    ensures exists z :: Refers(x, z) && Reached(z, y)
  {
    var c :| Chain(c) && c[0] == x && c[|c| - 1] == y;
    var d := c[1..];
    forall i | 0 <= i < |d| - 1 ensures Refers(d[i], d[i + 1]) {
      assert Refers(c[i + 1], c[i + 2]);
    }
    assert Refers(c[0], c[1]);
    assert Chain(d) && d[0] == c[1] && d[|d| - 1] == y;
    assert Refers(x, d[0]) && Reached(d[0], y);
  }

  /** What is reached from an item: itself, and what is reached from what it owns or keeps. */
  lemma ReachedFromOne(x: Item, y: Item)
    ensures Reached(x, y) <==>
            x == y || ReachedFrom(Parts(x), y) || (Kept(x).Some? && ReachedFrom(Kept(x).value.1, y))
  {
    hide Parts, Kept, Reached;
    if x == y {
      ReachedSelf(x);
    } else if Reached(x, y) {
      ReachedSplit(x, y);
      var z :| Refers(x, z) && Reached(z, y);
    } else {
      forall z | Refers(x, z) ensures !Reached(z, y) {
        if Reached(z, y) {
          ReachedStep(x, z, y);
        }
      }
    }
  }

  function TermStore(store: Store): Bodies { map a | a in store :: TermsOf(store[a]) }

  lemma {:induction false} CoherentJoins(bodies: Bodies, a: seq<Term>, b: seq<Term>)
    ensures Coherent(bodies, a + b) <==> Coherent(bodies, a) && Coherent(bodies, b)
  {
    if a == [] {
      assert a + b == b;
    } else {
      assert (a + b)[1..] == a[1..] + b && (a + b)[0] == a[0];
      CoherentJoins(bodies, a[1..], b);
    }
  }

  lemma CoherentOne(bodies: Bodies, t: Term)
    ensures Coherent(bodies, [t]) <==>
            if t.Node? then Coherent(bodies, t.parts)
            else t.addr in bodies && bodies[t.addr] == t.body && Coherent(bodies, t.body)
  {
  }

  lemma CoherentBuilt(store: Store, x: Item)
    requires KeptIn(store, x) && Coherent(TermStore(store), TermsOf(Parts(x)))
    requires Kept(x).Some? ==> Coherent(TermStore(store), TermsOf(Kept(x).value.1))
    ensures Coherent(TermStore(store), Terms(x))
  {
    hide Parts, Kept, Terms, TermsOf, Coherent;
    ItemsAreBuilt(x);
    var bodies := TermStore(store);
    var shared := match Kept(x) { case None => [] case Some(kept) => [Shared(kept.0, TermsOf(kept.1))] };
    var inside := TermsOf(Parts(x)) + shared;
    NothingCoherent(bodies);
    if Kept(x).Some? {
      CoherentOne(bodies, shared[0]);
      assert shared == [shared[0]];
    }
    CoherentJoins(bodies, TermsOf(Parts(x)), shared);
    CoherentOne(bodies, Node(1, inside));
  }

  lemma NothingCoherent(bodies: Bodies)
    ensures Coherent(bodies, [])
  {
  }

  /** Items whose addresses keep one thing each are coherent terms. */
  lemma {:induction false} StoredIsCoherent(store: Store, xs: seq<Item>, bound: nat)
    requires Stored(store, xs) && Below(xs, bound)
    ensures Coherent(TermStore(store), TermsOf(xs))
    decreases bound, |xs|
  {
    if xs == [] {
      NothingCoherent(TermStore(store));
    } else {
      hide Parts, Kept, Terms, Coherent, Reached, KeptIn, Measure;
      var x, rest := xs[0], xs[1..];
      PartsAreSmaller(x);
      forall y | Reached(x, y) ensures KeptIn(store, y) {
        assert ReachedFrom(xs, y);
      }
      ReachedSelf(x);
      forall y | ReachedFrom(Parts(x), y) ensures KeptIn(store, y) {
        ReachedFromOne(x, y);
      }
      StoredIsCoherent(store, Parts(x), Measure(x));
      if Kept(x).Some? {
        forall y | ReachedFrom(Kept(x).value.1, y) ensures KeptIn(store, y) {
          ReachedFromOne(x, y);
        }
        StoredIsCoherent(store, Kept(x).value.1, Measure(x));
      }
      CoherentBuilt(store, x);
      forall y | ReachedFrom(rest, y) ensures KeptIn(store, y) {
        assert ReachedFrom(xs, y);
      }
      StoredIsCoherent(store, rest, bound);
      CoherentJoins(TermStore(store), Terms(x), TermsOf(rest));
    }
  }

  lemma AddressesBuilt(x: Item)
    ensures Addresses(Terms(x)) ==
            Addresses(TermsOf(Parts(x)))
            + if Kept(x).Some? then {Kept(x).value.0} + Addresses(TermsOf(Kept(x).value.1)) else {}
  {
    hide Parts, Kept, Terms, TermsOf;
    ItemsAreBuilt(x);
    var shared := match Kept(x) { case None => [] case Some(kept) => [Shared(kept.0, TermsOf(kept.1))] };
    var inside := TermsOf(Parts(x)) + shared;
    Joined(TermsOf(Parts(x)), shared);
    assert Addresses([]) == {};
    if Kept(x).Some? {
      Single(shared[0]);
      assert shared == [shared[0]];
    }
    Single(Node(1, inside));
  }

  lemma AddressReachedByOne(x: Item, a: nat)
    ensures AddressReached([x], a) <==>
            || (Kept(x).Some? && Kept(x).value.0 == a)
            || AddressReached(Parts(x), a)
            || (Kept(x).Some? && AddressReached(Kept(x).value.1, a))
  {
    hide Parts, Kept, Reached;
    assert x in [x];
    forall y ensures ReachedFrom([x], y) <==>
                     x == y || ReachedFrom(Parts(x), y) || (Kept(x).Some? && ReachedFrom(Kept(x).value.1, y))
    {
      ReachedFromOne(x, y);
      assert Reached(x, y) ==> ReachedFrom([x], y);
    }
    hide ReachedFrom;
    ReachedHere(x);
    if AddressReached([x], a) {
      var y :| ReachedFrom([x], y) && Kept(y).Some? && Kept(y).value.0 == a;
    }
  }

  lemma ReachedHere(x: Item)
    ensures ReachedFrom([x], x)
  {
    ReachedSelf(x);
    assert x in [x];
  }

  lemma {:induction false} AddressesAreReached(xs: seq<Item>, bound: nat, a: nat)
    requires Below(xs, bound)
    ensures a in Addresses(TermsOf(xs)) <==> AddressReached(xs, a)
    decreases bound, |xs|
  {
    if xs != [] {
      hide Parts, Kept, Terms, Addresses, ReachedFrom, Measure;
      var x, rest := xs[0], xs[1..];
      PartsAreSmaller(x);
      AddressesAreReached(Parts(x), Measure(x), a);
      if Kept(x).Some? {
        AddressesAreReached(Kept(x).value.1, Measure(x), a);
      }
      AddressesBuilt(x);
      AddressReachedByOne(x, a);
      AddressesAreReached(rest, bound, a);
      Joined(Terms(x), TermsOf(rest));
      FirstOrRest(xs);
    }
  }

  lemma FirstOrRest(xs: seq<Item>)
    requires xs != []
    ensures forall y :: ReachedFrom(xs, y) <==> ReachedFrom([xs[0]], y) || ReachedFrom(xs[1..], y)
  {
    assert forall x :: x in xs <==> x in [xs[0]] || x in xs[1..];
  }

  // ----- The count -----

  ghost function Bound(xs: seq<Item>): (bound: nat)
    ensures Below(xs, bound)
  {
    if xs == [] then 0 else Measure(xs[0]) + 1 + Bound(xs[1..])
  }

  /** The nodes some items own. */
  ghost function NodesOf(xs: seq<Item>): (nodes: set<seq<nat>>)
    ensures AreNodes(xs, nodes)
  {
    NodesFrom(xs, 0, Bound(xs))
  }

  lemma NodesOfAreOwned(xs: seq<Item>)
    ensures |NodesOf(xs)| == Owned(TermsOf(xs))
  {
    NodesFromAreOwned(xs, 0, Bound(xs));
    assert xs[0..] == xs;
  }

  /** The addresses that can be reached. */
  ghost function ReachedAddresses(xs: seq<Item>): (addrs: set<nat>)
    ensures forall a :: a in addrs <==> AddressReached(xs, a)
  {
    assert forall a :: a in Addresses(TermsOf(xs)) <==> AddressReached(xs, a) by {
      forall a ensures a in Addresses(TermsOf(xs)) <==> AddressReached(xs, a) {
        AddressesAreReached(xs, Bound(xs), a);
      }
    }
    Addresses(TermsOf(xs))
  }

  /** The nodes of what is kept at some addresses, together. */
  ghost function NodesKept(store: Store, addrs: set<nat>): nat
    requires addrs <= store.Keys
  {
    if addrs == {} then 0
    else
      var a :| a in addrs;
      |NodesOf(store[a])| + NodesKept(store, addrs - {a})
  }

  lemma {:induction false} NodesKeptAreOwned(store: Store, addrs: set<nat>)
    requires addrs <= store.Keys
    ensures NodesKept(store, addrs) == OwnedBy(TermStore(store), addrs)
  {
    if addrs == {} {
      NothingOwned(TermStore(store));
    } else {
      var a :| a in addrs && NodesKept(store, addrs) == |NodesOf(store[a])| + NodesKept(store, addrs - {a});
      NodesKeptAreOwned(store, addrs - {a});
      OwnedByOneMore(TermStore(store), addrs, a);
      NodesOfAreOwned(store[a]);
    }
  }

  method AddItem(nodes: OutputTypeNodes, x: Item)
    modifies nodes
    ensures nodes.Now() == WalkAll(Terms(x), old(nodes.Now()))
  {
    hide WalkAll;
    match x {
      case AType(ty) => WalkOne(TypeTerm(ty), nodes.Now()); nodes.AddType(ty);
      case ASignature(sig) => nodes.AddCallableType(sig);
      case AnExport(export_) => nodes.AddExport(export_);
      case ASchemeType(ty) => WalkOne(SchemeTerm(ty), nodes.Now()); nodes.AddSchemeType(ty);
      case ACallee(callee) => nodes.AddCallee(callee);
      case AParam(param) => nodes.AddParam(param);
      case AnExpectation(expectation) => nodes.AddExpectation(expectation);
      case ASchema(schema) => nodes.AddSchema(schema);
      case AnInstance(instance) => nodes.AddInstance(instance);
      case AnArgument(argument) => WalkOne(ArgumentTerm(argument), nodes.Now()); nodes.AddArgument(argument);
      case AnApplication(application) => nodes.AddSchemeTypes(application.types);
      case ATypeScheme(scheme) => WalkOne(TypeSchemeTerm(scheme), nodes.Now()); nodes.AddTypeScheme(scheme);
      case AModule(at, exports) =>
        WalkOne(Shared(at, ExportsTerms(exports)), nodes.Now());
        nodes.AddModuleType(at, exports);
    }
  }

  /** The count after any sequence of roots: a node for every type and scheme type that stands at a position
      of the roots, and once for every address that can be reached, those of what is kept there. */
  method CountRoots(roots: seq<Item>) returns (count: nat)
    ensures forall store: Store :: Stored(store, roots) ==>
              && ReachedAddresses(roots) <= store.Keys
              && count == |NodesOf(roots)| + NodesKept(store, ReachedAddresses(roots))
  {
    hide Terms, WalkAll, Owned, OwnedBy;
    var nodes := new OutputTypeNodes();
    assert roots[0..] == roots;
    for n := 0 to |roots|
      invariant WalkAll(TermsOf(roots), Tally(0, {})) == WalkAll(TermsOf(roots[n..]), nodes.Now())
    {
      assert roots[n..][1..] == roots[n + 1..];
      WalkJoins(Terms(roots[n]), TermsOf(roots[n + 1..]), nodes.Now());
      AddItem(nodes, roots[n]);
    }
    WalkNone(nodes.Now());
    forall store: Store | Stored(store, roots)
      ensures ReachedAddresses(roots) <= store.Keys
      ensures nodes.count == |NodesOf(roots)| + NodesKept(store, ReachedAddresses(roots))
    {
      WalkIsNodes(store, roots);
    }
    return nodes.count;
  }

  /** The walk of some items counts their nodes, and those of every shared part once. */
  lemma WalkIsNodes(store: Store, roots: seq<Item>)
    requires Stored(store, roots)
    ensures ReachedAddresses(roots) <= store.Keys
    ensures WalkAll(TermsOf(roots), Tally(0, {})).count
            == |NodesOf(roots)| + NodesKept(store, ReachedAddresses(roots))
  {
    hide Stored, Below, TermsOf, WalkAll, Owned, OwnedBy, Addresses, Coherent, AddressReached;
    StoredIsCoherent(store, roots, Bound(roots));
    CountIsOwnedAndShared(TermStore(store), TermsOf(roots));
    forall a ensures a in Addresses(TermsOf(roots)) <==> AddressReached(roots, a) {
      AddressesAreReached(roots, Bound(roots), a);
    }
    NodesOfAreOwned(roots);
    assert ReachedAddresses(roots) == Addresses(TermsOf(roots));
    NodesKeptAreOwned(store, ReachedAddresses(roots));
  }

  /** However its positions are collected, a set of exactly the nodes has one size. */
  lemma NodesAreUnique(xs: seq<Item>, nodes: set<seq<nat>>)
    requires AreNodes(xs, nodes)
    ensures nodes == NodesOf(xs)
  {
  }
}
