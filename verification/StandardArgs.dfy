/** The decision of `find_package_handle_standard_args`: fold required variables, required
    components and the version check into one found flag and the list of what is missing. */
module StandardArgs {
  import opened CMake
  import opened Options
  import opened Sequences
  import opened VersionCheck
  import Versions

  /** The arguments that matter for the decision.  `foundVersion` is the value of the variable
      named by VERSION_VAR, when there is one and it is defined. */
  datatype Arguments = Arguments(
    keywords: bool,
    configMode: bool,
    requiredVars: seq<string>,
    handleComponents: bool,
    handleRange: bool,
    foundVersion: Option<string>)

  /** The caller's variables, as read by `if()`. */
  datatype Scope = Scope(
    isSet: string -> bool,
    components: seq<string>,
    componentFound: string -> bool,
    componentRequired: string -> bool,
    packageRequired: bool)

  /** `Done` carries `<Name>_FOUND` and `<NAME>_FOUND`; the other two stop the configuration.  The
      list of required variables counts as absent when CMake reads it as false. */
  datatype Outcome = Done(found: bool, foundUpper: bool) | NotFoundFatal | NoRequiredVars

  function EffectiveVars(name: string, args: Arguments): seq<string> {
    if args.configMode then RemoveDuplicates([name + "_CONFIG"] + args.requiredVars) else args.requiredVars
  }

  /** The elements of `list` that satisfy `p`, in order. */
  function Select(list: seq<string>, p: string -> bool): seq<string> {
    if list == [] then []
    else Select(list[..|list| - 1], p) + (if p(list[|list| - 1]) then [list[|list| - 1]] else [])
  }

  function AbsentVars(name: string, args: Arguments, scope: Scope): seq<string> {
    Select(EffectiveVars(name, args), v => !scope.isSet(v))
  }

  function AbsentComponents(args: Arguments, scope: Scope): seq<string> {
    if args.handleComponents
    then Select(scope.components, c => !scope.componentFound(c) && scope.componentRequired(c))
    else []
  }

  /** Keyword arguments need the keyword signature, and version texts are dotted numbers. */
  ghost predicate WellFormedCall(args: Arguments, request: Request) {
    && WellFormed(request)
    && (!args.keywords ==> !args.configMode && !args.handleComponents && !args.handleRange && args.foundVersion.None?)
    && (args.foundVersion.Some? && args.foundVersion.value != "" ==> Versions.IsDotted(args.foundVersion.value))
  }

  /** No version requested, no version variable defined, or a non-empty acceptable version. */
  ghost predicate VersionPasses(args: Arguments, request: Request)
    requires WellFormedCall(args, request)
  {
    || request.version.None?
    || args.foundVersion.None?
    || (args.foundVersion.value != "" && Acceptable(args.foundVersion.value, request, args.handleRange))
  }

  ghost predicate EverythingFound(name: string, args: Arguments, scope: Scope, request: Request)
    requires WellFormedCall(args, request)
  {
    && (forall v :: v in EffectiveVars(name, args) ==> scope.isSet(v))
    && (args.handleComponents ==>
          forall c :: c in scope.components && scope.componentRequired(c) ==> scope.componentFound(c))
    && VersionPasses(args, request)
  }

  lemma {:induction false} SelectMeaning(list: seq<string>, p: string -> bool)
    ensures forall x :: x in Select(list, p) <==> x in list && p(x)
    ensures Select(list, p) == [] <==> forall x :: x in list ==> !p(x)
  {
    if list != [] {
      var front := list[..|list| - 1];
      SelectMeaning(front, p);
      assert list == front + [list[|list| - 1]];
    }
  }

  /** What is selected keeps its order and is as often there as before: a list is selected part by
      part, and one element alone stays exactly when it satisfies the test. */
  lemma {:induction false} SelectByParts(a: seq<string>, b: seq<string>, p: string -> bool)
    ensures Select(a + b, p) == Select(a, p) + Select(b, p)
    ensures |b| == 1 ==> Select(b, p) == if p(b[0]) then b else []
  {
    if b == [] {
      assert a + b == a;
    } else {
      var n := |b| - 1;
      assert (a + b)[..|a + b| - 1] == a + b[..n];
      SelectByParts(a, b[..n], p);
      assert n == 0 ==> b[..n] == [] && b == [b[0]];
    }
  }

  lemma {:induction false} SelectCounts(list: seq<string>, p: string -> bool, x: string)
    ensures multiset(Select(list, p))[x] == if p(x) then multiset(list)[x] else 0
  {
    if list != [] {
      var n := |list| - 1;
      assert list == list[..n] + [list[n]];
      SelectCounts(list[..n], p, x);
    }
  }

  /** In configuration mode exactly the package's own variable joins the required ones. */
  lemma ConfigModeVars(name: string, args: Arguments)
    requires args.configMode
    ensures forall v :: v in EffectiveVars(name, args) <==> v == name + "_CONFIG" || v in args.requiredVars
    ensures Distinct(EffectiveVars(name, args))
    ensures EffectiveVars(name, args) != [] && EffectiveVars(name, args)[0] == name + "_CONFIG"
  {
    FirstStaysFirst([name + "_CONFIG"] + args.requiredVars);
    RemoveDuplicatesMeaning([name + "_CONFIG"] + args.requiredVars);
  }

  /** Everything is found exactly when the list of what is missing is empty and the version passes. */
  lemma FoundMeansNothingMissing(name: string, args: Arguments, scope: Scope, request: Request)
    requires WellFormedCall(args, request)
    ensures EverythingFound(name, args, scope, request)
            <==> AbsentVars(name, args, scope) + AbsentComponents(args, scope) == [] && VersionPasses(args, request)
  {
    SelectMeaning(EffectiveVars(name, args), v => !scope.isSet(v));
    SelectMeaning(scope.components, c => !scope.componentFound(c) && scope.componentRequired(c));
  }

  lemma EffectiveVarsMeaning(name: string, args: Arguments)
    ensures forall v :: v in EffectiveVars(name, args) <==>
      v in args.requiredVars || (args.configMode && v == name + "_CONFIG")
    ensures !args.configMode ==> EffectiveVars(name, args) == args.requiredVars
  {
    if args.configMode {
      ConfigModeVars(name, args);
    }
  }

  /** The conditions for finding everything, written out. */
  lemma EverythingMeaning(name: string, args: Arguments, scope: Scope, request: Request)
    requires WellFormedCall(args, request)
    ensures EverythingFound(name, args, scope, request) <==>
      && (forall v :: v in args.requiredVars ==> scope.isSet(v))
      && (args.configMode ==> scope.isSet(name + "_CONFIG"))
      && (args.handleComponents ==>
            forall c :: c in scope.components && scope.componentRequired(c) ==> scope.componentFound(c))
      && (request.version.Some? && args.foundVersion.Some? ==>
            args.foundVersion.value != "" && Acceptable(args.foundVersion.value, request, args.handleRange))
  {
    EffectiveVarsMeaning(name, args);
  }

  /** What is missing, written out. */
  lemma MissingMeaning(name: string, args: Arguments, scope: Scope)
    ensures forall x :: x in AbsentVars(name, args, scope) <==>
      (x in args.requiredVars || (args.configMode && x == name + "_CONFIG")) && !scope.isSet(x)
    ensures forall x :: x in AbsentComponents(args, scope) <==>
      args.handleComponents && x in scope.components && scope.componentRequired(x) && !scope.componentFound(x)
  {
    EffectiveVarsMeaning(name, args);
    SelectMeaning(EffectiveVars(name, args), v => !scope.isSet(v));
    SelectMeaning(scope.components, c => !scope.componentFound(c) && scope.componentRequired(c));
  }

  method CheckRequiredVars(required: seq<string>, scope: Scope) returns (found: bool, missing: seq<string>)
    ensures missing == Select(required, v => !scope.isSet(v))
    ensures found <==> missing == []
  {
    found, missing := true, [];
    var absent := v => !scope.isSet(v);
    for i := 0 to |required|
      invariant missing == Select(required[..i], absent)
      invariant found <==> missing == []
    {
      assert required[..i + 1][..i] == required[..i];
      if !scope.isSet(required[i]) {
        found := false;
        missing := missing + [required[i]];
      }
    }
    assert required[..|required|] == required;
  }

  method CheckComponents(scope: Scope, found: bool, missing: seq<string>) returns (found': bool, missing': seq<string>)
    ensures missing' == missing + Select(scope.components, c => !scope.componentFound(c) && scope.componentRequired(c))
    ensures found' <==>
      found && Select(scope.components, c => !scope.componentFound(c) && scope.componentRequired(c)) == []
  {
    found', missing' := found, missing;
    var absent := c => !scope.componentFound(c) && scope.componentRequired(c);
    for i := 0 to |scope.components|
      invariant missing' == missing + Select(scope.components[..i], absent)
      invariant found' <==> found && Select(scope.components[..i], absent) == []
    {
      var comp := scope.components[i];
      assert scope.components[..i + 1][..i] == scope.components[..i];
      if !scope.componentFound(comp) {
        if scope.componentRequired(comp) {
          found' := false;
          missing' := missing' + [comp];
        }
      }
    }
    assert scope.components[..|scope.components|] == scope.components;
  }

  method FindPackageHandleStandardArgs(name: string, args: Arguments, scope: Scope, request: Request)
    returns (outcome: Outcome, missing: seq<string>)
    requires WellFormedCall(args, request)
    ensures outcome.NoRequiredVars? <==> args.keywords && !Truthy(EffectiveVars(name, args)) && !args.handleComponents
    ensures outcome.Done? ==> outcome.found == outcome.foundUpper == EverythingFound(name, args, scope, request)
    ensures outcome.NotFoundFatal? ==> scope.packageRequired && !EverythingFound(name, args, scope, request)
    ensures outcome.Done? && scope.packageRequired ==> outcome.found
    ensures !outcome.NoRequiredVars? ==> missing == AbsentVars(name, args, scope) + AbsentComponents(args, scope)
    ensures outcome.Done? ==>
      (outcome.found <==>
         && (forall v :: v in args.requiredVars ==> scope.isSet(v))
         && (args.configMode ==> scope.isSet(name + "_CONFIG"))
         && (args.handleComponents ==>
               forall c :: c in scope.components && scope.componentRequired(c) ==> scope.componentFound(c))
         && (request.version.Some? && args.foundVersion.Some? ==>
               args.foundVersion.value != "" && Acceptable(args.foundVersion.value, request, args.handleRange)))
    ensures !outcome.NoRequiredVars? ==>
      forall x :: x in missing <==>
        || ((x in args.requiredVars || (args.configMode && x == name + "_CONFIG")) && !scope.isSet(x))
        || (args.handleComponents && x in scope.components && scope.componentRequired(x) && !scope.componentFound(x))
  {
    EverythingMeaning(name, args, scope, request);
    MissingMeaning(name, args, scope);
    var required := args.requiredVars;
    if args.configMode {
      required := RemoveDuplicates([name + "_CONFIG"] + required);
    }
    if args.keywords && !Truthy(required) && !args.handleComponents {
      return NoRequiredVars, [];
    }
    var nameFound, upperFound;
    nameFound, missing := CheckRequiredVars(required, scope);
    upperFound := nameFound;
    if args.handleComponents {
      nameFound, missing := CheckComponents(scope, nameFound, missing);
    }
    var versionOk := true;
    if request.version.Some? {
      if args.foundVersion.Some? {
        if args.foundVersion.value != "" {
          versionOk := FindPackageCheckVersion(args.foundVersion.value, request, args.handleRange);
        } else {
          versionOk := false;
        }
      }
    }
    if !versionOk {
      nameFound := false;
    }
    FoundMeansNothingMissing(name, args, scope, request);
    if !nameFound && scope.packageRequired {
      return NotFoundFatal, missing;
    }
    upperFound := nameFound;
    outcome := Done(nameFound, upperFound);
  }
}
