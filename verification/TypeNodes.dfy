/** The type nodes of a checker's output: types and type schemes whose larger parts are shared.
    `at` is the address of a shared part. */
module TypeNodes {
  import opened SharedTerms

  datatype Type =
    | Atom
    | List(inner: Type) | Stream(inner: Type) | Set(inner: Type) | Optional(inner: Type)
    | Map(left: Type, right: Type) | Result(left: Type, right: Type)
    | Record(at: nat, fields: seq<Type>)
    | Module(at: nat, exports: seq<Export>)
    | Callable(at: nat, sig: CallableType)
    | Validated(base: Type)
    | Union(members: seq<Type>)

  datatype Export = Value(ty: Type) | Function(sig: CallableType) | Generic

  datatype CallableType = CallableType(params: seq<Type>, result: Type)

  datatype SchemeType =
    | Ground(ty: Type)
    | Monotype(at: nat, callee: Callee)
    | SchemeList(inner: SchemeType) | SchemeStream(inner: SchemeType) | SchemeSet(inner: SchemeType)
    | SchemeOptional(inner: SchemeType) | SchemeValidated(inner: SchemeType)
    | SchemeMap(left: SchemeType, right: SchemeType) | SchemeResult(left: SchemeType, right: SchemeType)
    | SchemeRecord(fields: seq<SchemeType>)
    | SchemeUnion(members: seq<SchemeType>)
    | SchemeCallable | Parameter

  datatype Expectation = Unconstrained | Expects(schema: Schema)

  datatype Param = Param(ty: SchemeType, expectation: Expectation)

  datatype Callee = Callee(params: seq<Param>, result: SchemeType, expectation: Expectation)

  datatype Argument = OfType(ty: Type) | OfScheme(scheme: SchemeType)

  datatype Instance = Instance(arguments: seq<Argument>)

  datatype Schema = Schema(instances: seq<Instance>, at: nat, children: seq<Schema>)

  datatype Application = Application(types: seq<SchemeType>)

  datatype TypeScheme = TypeScheme(at: nat, callee: Callee, applications: seq<Application>)

  // ----- The graph they make -----

  function TypeTerm(ty: Type): Term {
    Node(1, match ty
            case Atom => []
            case List(inner) => [TypeTerm(inner)]
            case Stream(inner) => [TypeTerm(inner)]
            case Set(inner) => [TypeTerm(inner)]
            case Optional(inner) => [TypeTerm(inner)]
            case Map(left, right) => [TypeTerm(left), TypeTerm(right)]
            case Result(left, right) => [TypeTerm(left), TypeTerm(right)]
            case Record(at, fields) => [Shared(at, TypeTerms(fields))]
            case Module(at, exports) => [Shared(at, ExportsTerms(exports))]
            case Callable(at, sig) => [Shared(at, CallableTerms(sig))]
            case Validated(base) => [TypeTerm(base)]
            case Union(members) => TypeTerms(members))
  }

  function TypeTerms(tys: seq<Type>): seq<Term> {
    if tys == [] then [] else [TypeTerm(tys[0])] + TypeTerms(tys[1..])
  }

  function CallableTerms(sig: CallableType): seq<Term> { TypeTerms(sig.params) + [TypeTerm(sig.result)] }

  function ExportTerms(export_: Export): seq<Term> {
    match export_
    case Value(ty) => [TypeTerm(ty)]
    case Function(sig) => CallableTerms(sig)
    case Generic => []
  }

  function ExportsTerms(exports: seq<Export>): seq<Term> {
    if exports == [] then [] else ExportTerms(exports[0]) + ExportsTerms(exports[1..])
  }

  function SchemeTerm(ty: SchemeType): Term {
    Node(1, match ty
            case Ground(ty) => [TypeTerm(ty)]
            case Monotype(at, callee) => [Shared(at, CalleeTerms(callee))]
            case SchemeList(inner) => [SchemeTerm(inner)]
            case SchemeStream(inner) => [SchemeTerm(inner)]
            case SchemeSet(inner) => [SchemeTerm(inner)]
            case SchemeOptional(inner) => [SchemeTerm(inner)]
            case SchemeValidated(inner) => [SchemeTerm(inner)]
            case SchemeMap(left, right) => [SchemeTerm(left), SchemeTerm(right)]
            case SchemeResult(left, right) => [SchemeTerm(left), SchemeTerm(right)]
            case SchemeRecord(fields) => SchemeTerms(fields)
            case SchemeUnion(members) => SchemeTerms(members)
            case SchemeCallable => []
            case Parameter => [])
  }

  function SchemeTerms(tys: seq<SchemeType>): seq<Term> {
    if tys == [] then [] else [SchemeTerm(tys[0])] + SchemeTerms(tys[1..])
  }

  function CalleeTerms(callee: Callee): seq<Term> {
    ParamsTerms(callee.params) + [SchemeTerm(callee.result)] + ExpectationTerms(callee.expectation)
  }

  function ParamTerms(param: Param): seq<Term> { [SchemeTerm(param.ty)] + ExpectationTerms(param.expectation) }

  function ParamsTerms(params: seq<Param>): seq<Term> {
    if params == [] then [] else ParamTerms(params[0]) + ParamsTerms(params[1..])
  }

  function ExpectationTerms(expectation: Expectation): seq<Term> {
    match expectation
    case Unconstrained => []
    case Expects(schema) => SchemaTerms(schema)
  }

  function SchemaTerms(schema: Schema): seq<Term> {
    InstancesTerms(schema.instances) + [Shared(schema.at, SchemasTerms(schema.children))]
  }

  function SchemasTerms(schemas: seq<Schema>): seq<Term> {
    if schemas == [] then [] else SchemaTerms(schemas[0]) + SchemasTerms(schemas[1..])
  }

  function InstancesTerms(instances: seq<Instance>): seq<Term> {
    if instances == [] then [] else InstanceTerms(instances[0]) + InstancesTerms(instances[1..])
  }

  function InstanceTerms(instance: Instance): seq<Term> { ArgumentsTerms(instance.arguments) }

  function ArgumentTerm(argument: Argument): Term {
    match argument
    case OfType(ty) => TypeTerm(ty)
    case OfScheme(scheme) => SchemeTerm(scheme)
  }

  function ArgumentsTerms(arguments: seq<Argument>): seq<Term> {
    if arguments == [] then [] else [ArgumentTerm(arguments[0])] + ArgumentsTerms(arguments[1..])
  }

  function ApplicationsTerms(applications: seq<Application>): seq<Term> {
    if applications == [] then [] else SchemeTerms(applications[0].types) + ApplicationsTerms(applications[1..])
  }

  function TypeSchemeTerm(scheme: TypeScheme): Term {
    Shared(scheme.at, CalleeTerms(scheme.callee) + ApplicationsTerms(scheme.applications))
  }

  lemma {:induction false} WalkJoins(a: seq<Term>, b: seq<Term>, tally: Tally)
    ensures WalkAll(a + b, tally) == WalkAll(b, WalkAll(a, tally))
  {
    if a == [] {
      assert a + b == b;
    } else {
      assert (a + b)[1..] == a[1..] + b;
      WalkJoins(a[1..], b, Walk(a[0], tally));
    }
  }

  lemma WalkNone(tally: Tally)
    ensures WalkAll([], tally) == tally
  {
  }

  lemma WalkOne(t: Term, tally: Tally)
    ensures WalkAll([t], tally) == Walk(t, tally)
  {
  }

  lemma WalkTwo(t: Term, u: Term, tally: Tally)
    ensures WalkAll([t, u], tally) == Walk(u, Walk(t, tally))
  {
    assert [t, u][1..] == [u];
    WalkOne(u, Walk(t, tally));
  }

  // ----- The counter -----

  class OutputTypeNodes {
    var count: nat
    var sharedNodes: set<nat>

    ghost function Now(): Tally
      reads this
    {
      Tally(count, sharedNodes)
    }

    constructor ()
      ensures Now() == Tally(0, {})
    {
      count, sharedNodes := 0, {};
    }

    method FirstShared(at: nat) returns (first: bool)
      modifies `sharedNodes
      ensures first == (at !in old(sharedNodes)) && sharedNodes == old(sharedNodes) + {at}
    {
      first := at !in sharedNodes;
      sharedNodes := sharedNodes + {at};
    }

    method AddType(ty: Type)
      modifies this
      ensures Now() == Walk(TypeTerm(ty), old(Now()))
      decreases ty
    {
      hide TypeTerms, ExportsTerms, CallableTerms, WalkAll;
      count := count + 1;
      ghost var here := Now();
      WalkNone(here);
      match ty {
        case Atom =>
        case List(inner) => AddType(inner); WalkOne(TypeTerm(inner), here);
        case Stream(inner) => AddType(inner); WalkOne(TypeTerm(inner), here);
        case Set(inner) => AddType(inner); WalkOne(TypeTerm(inner), here);
        case Optional(inner) => AddType(inner); WalkOne(TypeTerm(inner), here);
        case Map(left, right) =>
          WalkTwo(TypeTerm(left), TypeTerm(right), here);
          AddType(left);
          AddType(right);
        case Result(left, right) =>
          WalkTwo(TypeTerm(left), TypeTerm(right), here);
          AddType(left);
          AddType(right);
        case Record(at, fields) =>
          WalkOne(Shared(at, TypeTerms(fields)), here);
          var first := FirstShared(at);
          if first {
            AddTypes(fields);
          } else {
            assert Now() == here;
          }
        case Module(at, exports) =>
          WalkOne(Shared(at, ExportsTerms(exports)), here);
          AddModuleType(at, exports);
        case Callable(at, sig) =>
          WalkOne(Shared(at, CallableTerms(sig)), here);
          AddTypedCallable(at, sig);
        case Validated(base) => AddType(base); WalkOne(TypeTerm(base), here);
        case Union(members) => AddTypes(members);
      }
    }

    method AddTypes(items: seq<Type>)
      modifies this
      ensures Now() == WalkAll(TypeTerms(items), old(Now()))
      decreases items
    {
      assert items[0..] == items;
      for n := 0 to |items|
        invariant WalkAll(TypeTerms(items), old(Now())) == WalkAll(TypeTerms(items[n..]), Now())
      {
        assert items[n..][1..] == items[n + 1..];
        WalkJoins([TypeTerm(items[n])], TypeTerms(items[n + 1..]), Now());
        WalkOne(TypeTerm(items[n]), Now());
        AddType(items[n]);
      }
    }

    method AddCallableType(sig: CallableType)
      modifies this
      ensures Now() == WalkAll(CallableTerms(sig), old(Now()))
      decreases sig, 0
    {
      WalkJoins(TypeTerms(sig.params), [TypeTerm(sig.result)], Now());
      AddTypes(sig.params);
      WalkOne(TypeTerm(sig.result), Now());
      AddType(sig.result);
    }

    method AddModuleType(at: nat, exports: seq<Export>)
      modifies this
      ensures Now() == Walk(Shared(at, ExportsTerms(exports)), old(Now()))
      decreases exports, 1
    {
      var first := FirstShared(at);
      if !first {
        assert Now() == old(Now());
        return;
      }
      AddExports(exports);
    }

    method AddExports(items: seq<Export>)
      modifies this
      ensures Now() == WalkAll(ExportsTerms(items), old(Now()))
      decreases items, 0
    {
      assert items[0..] == items;
      for n := 0 to |items|
        invariant WalkAll(ExportsTerms(items), old(Now())) == WalkAll(ExportsTerms(items[n..]), Now())
      {
        assert items[n..][1..] == items[n + 1..];
        WalkJoins(ExportTerms(items[n]), ExportsTerms(items[n + 1..]), Now());
        AddExport(items[n]);
      }
    }

    method AddExport(export_: Export)
      modifies this
      ensures Now() == WalkAll(ExportTerms(export_), old(Now()))
      decreases export_
    {
      match export_ {
        case Value(ty) => WalkOne(TypeTerm(ty), Now()); AddType(ty);
        case Function(sig) => AddCallableType(sig);
        case Generic =>
      }
    }

    method AddTypedCallable(at: nat, sig: CallableType)
      modifies this
      ensures Now() == Walk(Shared(at, CallableTerms(sig)), old(Now()))
      decreases sig, 1
    {
      var first := FirstShared(at);
      if first {
        AddCallableType(sig);
      } else {
        assert Now() == old(Now());
      }
    }

    method AddSchemeType(ty: SchemeType)
      modifies this
      ensures Now() == Walk(SchemeTerm(ty), old(Now()))
      decreases ty
    {
      hide TypeTerm, CalleeTerms, SchemeTerms, WalkAll;
      count := count + 1;
      ghost var here := Now();
      WalkNone(here);
      match ty {
        case Ground(inner) => AddType(inner); WalkOne(TypeTerm(inner), here);
        case Monotype(at, callee) =>
          WalkOne(Shared(at, CalleeTerms(callee)), here);
          var first := FirstShared(at);
          if first {
            AddCallee(callee);
          } else {
            assert Now() == here;
          }
        case SchemeList(inner) => AddSchemeType(inner); WalkOne(SchemeTerm(inner), here);
        case SchemeStream(inner) => AddSchemeType(inner); WalkOne(SchemeTerm(inner), here);
        case SchemeSet(inner) => AddSchemeType(inner); WalkOne(SchemeTerm(inner), here);
        case SchemeOptional(inner) => AddSchemeType(inner); WalkOne(SchemeTerm(inner), here);
        case SchemeValidated(inner) => AddSchemeType(inner); WalkOne(SchemeTerm(inner), here);
        case SchemeMap(left, right) =>
          WalkTwo(SchemeTerm(left), SchemeTerm(right), here);
          AddSchemeType(left);
          AddSchemeType(right);
        case SchemeResult(left, right) =>
          WalkTwo(SchemeTerm(left), SchemeTerm(right), here);
          AddSchemeType(left);
          AddSchemeType(right);
        case SchemeRecord(fields) => AddSchemeTypes(fields);
        case SchemeUnion(members) => AddSchemeTypes(members);
        case SchemeCallable =>
        case Parameter =>
      }
    }

    method AddSchemeTypes(items: seq<SchemeType>)
      modifies this
      ensures Now() == WalkAll(SchemeTerms(items), old(Now()))
      decreases items
    {
      assert items[0..] == items;
      for n := 0 to |items|
        invariant WalkAll(SchemeTerms(items), old(Now())) == WalkAll(SchemeTerms(items[n..]), Now())
      {
        assert items[n..][1..] == items[n + 1..];
        WalkJoins([SchemeTerm(items[n])], SchemeTerms(items[n + 1..]), Now());
        WalkOne(SchemeTerm(items[n]), Now());
        AddSchemeType(items[n]);
      }
    }

    method AddCallee(callee: Callee)
      modifies this
      ensures Now() == WalkAll(CalleeTerms(callee), old(Now()))
      decreases callee
    {
      var result, expectation := SchemeTerm(callee.result), ExpectationTerms(callee.expectation);
      WalkJoins(ParamsTerms(callee.params) + [result], expectation, Now());
      WalkJoins(ParamsTerms(callee.params), [result], Now());
      AddParams(callee.params);
      WalkOne(result, Now());
      AddSchemeType(callee.result);
      AddExpectation(callee.expectation);
    }

    method AddParams(items: seq<Param>)
      modifies this
      ensures Now() == WalkAll(ParamsTerms(items), old(Now()))
      decreases items
    {
      assert items[0..] == items;
      for n := 0 to |items|
        invariant WalkAll(ParamsTerms(items), old(Now())) == WalkAll(ParamsTerms(items[n..]), Now())
      {
        assert items[n..][1..] == items[n + 1..];
        WalkJoins(ParamTerms(items[n]), ParamsTerms(items[n + 1..]), Now());
        AddParam(items[n]);
      }
    }

    method AddParam(param: Param)
      modifies this
      ensures Now() == WalkAll(ParamTerms(param), old(Now()))
      decreases param
    {
      WalkJoins([SchemeTerm(param.ty)], ExpectationTerms(param.expectation), Now());
      WalkOne(SchemeTerm(param.ty), Now());
      AddSchemeType(param.ty);
      AddExpectation(param.expectation);
    }

    method AddExpectation(expectation: Expectation)
      modifies this
      ensures Now() == WalkAll(ExpectationTerms(expectation), old(Now()))
      decreases expectation
    {
      if expectation.Expects? {
        AddSchema(expectation.schema);
      }
    }

    method AddSchema(schema: Schema)
      modifies this
      ensures Now() == WalkAll(SchemaTerms(schema), old(Now()))
      decreases schema
    {
      var children := Shared(schema.at, SchemasTerms(schema.children));
      WalkJoins(InstancesTerms(schema.instances), [children], Now());
      AddInstances(schema.instances);
      WalkOne(children, Now());
      ghost var here := Now();
      var first := FirstShared(schema.at);
      if first {
        AddSchemas(schema.children);
      } else {
        assert Now() == here;
      }
    }

    method AddSchemas(items: seq<Schema>)
      modifies this
      ensures Now() == WalkAll(SchemasTerms(items), old(Now()))
      decreases items
    {
      assert items[0..] == items;
      for n := 0 to |items|
        invariant WalkAll(SchemasTerms(items), old(Now())) == WalkAll(SchemasTerms(items[n..]), Now())
      {
        assert items[n..][1..] == items[n + 1..];
        WalkJoins(SchemaTerms(items[n]), SchemasTerms(items[n + 1..]), Now());
        AddSchema(items[n]);
      }
    }

    method AddInstances(items: seq<Instance>)
      modifies this
      ensures Now() == WalkAll(InstancesTerms(items), old(Now()))
      decreases items
    {
      assert items[0..] == items;
      for n := 0 to |items|
        invariant WalkAll(InstancesTerms(items), old(Now())) == WalkAll(InstancesTerms(items[n..]), Now())
      {
        assert items[n..][1..] == items[n + 1..];
        WalkJoins(InstanceTerms(items[n]), InstancesTerms(items[n + 1..]), Now());
        AddInstance(items[n]);
      }
    }

    method AddInstance(instance: Instance)
      modifies this
      ensures Now() == WalkAll(InstanceTerms(instance), old(Now()))
      decreases instance
    {
      AddArguments(instance.arguments);
    }

    method AddArguments(items: seq<Argument>)
      modifies this
      ensures Now() == WalkAll(ArgumentsTerms(items), old(Now()))
      decreases items
    {
      assert items[0..] == items;
      for n := 0 to |items|
        invariant WalkAll(ArgumentsTerms(items), old(Now())) == WalkAll(ArgumentsTerms(items[n..]), Now())
      {
        assert items[n..][1..] == items[n + 1..];
        WalkJoins([ArgumentTerm(items[n])], ArgumentsTerms(items[n + 1..]), Now());
        WalkOne(ArgumentTerm(items[n]), Now());
        AddArgument(items[n]);
      }
    }

    method AddArgument(argument: Argument)
      modifies this
      ensures Now() == Walk(ArgumentTerm(argument), old(Now()))
      decreases argument
    {
      match argument {
        case OfType(ty) => AddType(ty);
        case OfScheme(scheme) => AddSchemeType(scheme);
      }
    }

    method AddTypeScheme(scheme: TypeScheme)
      modifies this
      ensures Now() == Walk(TypeSchemeTerm(scheme), old(Now()))
    {
      var first := FirstShared(scheme.at);
      if !first {
        assert Now() == old(Now());
        return;
      }
      WalkJoins(CalleeTerms(scheme.callee), ApplicationsTerms(scheme.applications), Now());
      AddCallee(scheme.callee);
      AddApplications(scheme.applications);
    }

    method AddApplications(items: seq<Application>)
      modifies this
      ensures Now() == WalkAll(ApplicationsTerms(items), old(Now()))
    {
      assert items[0..] == items;
      for n := 0 to |items|
        invariant WalkAll(ApplicationsTerms(items), old(Now())) == WalkAll(ApplicationsTerms(items[n..]), Now())
      {
        assert items[n..][1..] == items[n + 1..];
        WalkJoins(SchemeTerms(items[n].types), ApplicationsTerms(items[n + 1..]), Now());
        AddSchemeTypes(items[n].types);
      }
    }
  }
}
