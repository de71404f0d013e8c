/**
 * The validations of an app manifest message. Every check contributes its
 * own full error messages; the message is valid when the list is empty.
 */
module ManifestValidation {
  import opened Wrappers
  import opened Text
  import opened ManifestValue
  import opened ByteConverter

  const UNSUPPORTED_UNIT := " must use a supported unit: B, K, KB, M, MB, G, GB, T, or TB"
  const NOT_GREATER_THAN_ZERO_MB := " must be greater than 0MB"
  const NOT_A_NUMBER := " is not a number"

  const INSTANCES_NOT_A_NUMBER := "Instances is not a number"
  const INSTANCES_NOT_AN_INTEGER := "Instances must be an integer"
  const INSTANCES_NEGATIVE := "Instances must be greater than or equal to 0"
  const BUILDPACK_NOT_STRING := "Buildpacks can only contain strings"
  const STACK_NOT_STRING := "Stack must be a string"
  const ENV_NOT_HASH := "env must be a hash of keys and values"
  const ENV_KEY_EMPTY := "Env key must be a minimum length of 1"
  const ENV_KEY_VCAP := "Env cannot start with VCAP_"
  const ENV_KEY_VMC := "Env cannot start with VMC_"
  const ENV_KEY_PORT := "Env cannot set PORT"
  const ROUTES_NOT_HASHES := "Routes must be a list of route hashes"
  const NO_ROUTE_NOT_BOOLEAN := "No-route must be a boolean"
  const NO_ROUTE_WITH_ROUTES := "Cannot use the combination of properties: no-route, routes"
  const RANDOM_ROUTE_NOT_BOOLEAN := "Random-route must be a boolean"
  const SERVICES_NOT_LIST := "Services must be a list of service instance names"
  const PROCESSES_NOT_ARRAY := "Processes must be an array of process configurations"
  const PROCESS_WITHOUT_TYPE := "All Processes must specify a type"
  const DUPLICATE_PROCESS := " Process may only be present once"

  predicate IsSpace(c: char) {
    c == ' ' || c == '\t' || c == '\n' || c == '\r'
  }

  /** String#blank?: empty or white space only. */
  predicate IsBlankText(s: string) {
    forall i :: 0 <= i < |s| ==> IsSpace(s[i])
  }

  /** Object#blank? on a manifest value: nil, false, blank text, an empty list or an empty hash. */
  predicate IsBlank(v: Value) {
    match v
    case Null => true
    case Bool(b) => !b
    case Str(s) => IsBlankText(s)
    case List(items) => items == []
    case Hash(entries) => entries == []
    case _ => false
  }

  // ---------------------------------------------------------------- amounts

  /**
   * The byte converter applied to a raw memory or disk_quota value: nothing
   * for an absent or blank value, otherwise the conversion of the value's
   * text. A YAML integer or float prints as a bare number, which has no unit;
   * true, a non-empty list or a non-empty hash prints as something that is
   * not a number.
   */
  function ConvertToMb(v: Option<Value>): (r: Option<Result<int, ByteError>>)
    ensures r.None? <==> v.None? || IsBlank(v.value)
    ensures v.Some? && (v.value.Int? || v.value.Float?) ==> r == Some(Failure(InvalidUnits))
    ensures v.Some? && !IsBlank(v.value) && (v.value.Bool? || v.value.List? || v.value.Hash?) ==> r == Some(Failure(NonNumeric))
  {
    match v
    case None => None
    case Some(x) =>
      if IsBlank(x) then None
      else
        match x
        case Str(s) => Some(ToMegabytes(s))
        case Int(i) => BareIntegerHasNoUnit(i); Some(ToMegabytes(IntToString(i)))
        case Float(_) => Some(Failure(InvalidUnits))
        case _ => Some(Failure(NonNumeric))
  }

  /** The megabytes a raw amount converts to, when it converts. */
  function MegabytesOf(v: Option<Value>): Option<int> {
    match ConvertToMb(v)
    case Some(Success(mb)) => Some(mb)
    case _ => None
  }

  /** Errors of one amount: a format error, or else a non-positive amount; never both. */
  function ByteFieldErrors(field: string, v: Option<Value>): (errs: seq<string>)
    ensures |errs| <= 1
    ensures errs == [] <==> ConvertToMb(v).None? || (MegabytesOf(v).Some? && 1 <= MegabytesOf(v).value)
  {
    match ConvertToMb(v)
    case None => []
    case Some(Failure(NonNumeric)) => [field + NOT_A_NUMBER]
    case Some(Failure(InvalidUnits)) => [field + UNSUPPORTED_UNIT]
    case Some(Success(mb)) => if mb < 1 then [field + NOT_GREATER_THAN_ZERO_MB] else []
  }

  /** A text that starts with a visible character is converted as it stands. */
  lemma ConvertVisibleText(s: string)
    requires 0 < |s| && !IsSpace(s[0])
    ensures ConvertToMb(Some(Str(s))) == Some(ToMegabytes(s))
  {
    VisibleNotBlank(s);
    ConvertNonBlank(s);
  }

  lemma VisibleNotBlank(s: string)
    requires 0 < |s| && !IsSpace(s[0])
    ensures !IsBlankText(s)
  {
  }

  lemma ConvertNonBlank(s: string)
    requires !IsBlankText(s)
    ensures ConvertToMb(Some(Str(s))) == Some(ToMegabytes(s))
  {
  }

  /** A bare integer (120, -5) has no unit: Integer#to_s is rejected by the converter for that. */
  lemma {:induction false} BareIntegerHasNoUnit(i: int)
    ensures ToMegabytes(IntToString(i)) == Failure(InvalidUnits)
  {
    var s := IntToString(i);
    var digits := NatToDigits(if i < 0 then -i else i);
    SplitWholeOf(digits, "");
    assert digits + "" == digits;
    if i < 0 {
      assert s == "-" + digits && s[1..] == digits;
    }
    assert SplitFraction("") == ("", "");
  }

  /** memory: 120 and every other bare integer yields exactly the unsupported-unit error. */
  lemma {:induction false} BareIntegerAmount(field: string, i: int)
    ensures ByteFieldErrors(field, Some(Int(i))) == [field + UNSUPPORTED_UNIT]
  {
    BareIntegerHasNoUnit(i);
  }

  /** A number followed by an unsupported suffix ('200INVALID') yields exactly the unsupported-unit error. */
  lemma {:induction false} UnsupportedUnitAmount(field: string, n: nat, suffix: string)
    requires suffix == [] || (!IsDigit(suffix[0]) && suffix[0] != '.')
    requires ParseUnit(suffix).None?
    ensures ByteFieldErrors(field, Some(Str(NatToDigits(n) + suffix))) == [field + UNSUPPORTED_UNIT]
  {
    UnsupportedUnit(n, suffix);
    assert !IsSpace((NatToDigits(n) + suffix)[0]);
  }

  /** A text that does not start like a number ('gerg herscheiser') is "not a number". */
  lemma NonNumericAmount(field: string, s: string)
    requires !IsBlankText(s) && !StartsNumeric(s)
    ensures ByteFieldErrors(field, Some(Str(s))) == [field + NOT_A_NUMBER]
  {
  }

  /** A whole number with a supported unit is valid exactly when it is at least one megabyte. */
  lemma {:induction false} WholeAmountErrors(field: string, n: nat, u: Unit)
    ensures var errs := ByteFieldErrors(field, Some(Str(NatToDigits(n) + UnitName(u))));
            (errs == [] <==> MEGABYTE <= n * Multiplier(u))
            && (errs != [] ==> errs == [field + NOT_GREATER_THAN_ZERO_MB])
  {
    ConvertWholeAmount(n, u);
    LeadingDigit(NatToDigits(n), UnitName(u));
    ByteAmountErrors(field, NatToDigits(n) + UnitName(u), n * Multiplier(u));
  }

  lemma LeadingDigit(digits: string, unit: string)
    requires 0 < |digits| && AllDigits(digits)
    ensures 0 < |digits + unit| && !IsSpace((digits + unit)[0])
  {
    assert (digits + unit)[0] == digits[0];
  }

  /** An amount of so many bytes is in error exactly when it is below one megabyte. */
  lemma ByteAmountErrors(field: string, s: string, bytes: nat)
    requires 0 < |s| && !IsSpace(s[0])
    requires ToMegabytes(s) == Success(bytes / MEGABYTE)
    ensures var errs := ByteFieldErrors(field, Some(Str(s)));
            (errs == [] <==> MEGABYTE <= bytes)
            && (errs != [] ==> errs == [field + NOT_GREATER_THAN_ZERO_MB])
  {
    VisibleAmountErrors(field, s, bytes / MEGABYTE);
    AtLeastOneMegabyte(bytes);
  }

  /** A text starting with a visible character that converts to mb megabytes is in error exactly when mb is below one. */
  lemma VisibleAmountErrors(field: string, s: string, mb: int)
    requires 0 < |s| && !IsSpace(s[0])
    requires ToMegabytes(s) == Success(mb)
    ensures ByteFieldErrors(field, Some(Str(s))) == if mb < 1 then [field + NOT_GREATER_THAN_ZERO_MB] else []
  {
    ConvertVisibleText(s);
  }

  lemma AtLeastOneMegabyte(bytes: nat)
    ensures 1 <= bytes / MEGABYTE <==> MEGABYTE <= bytes
  {
    FloorDivBounds(bytes, MEGABYTE);
  }

  /** Every negative amount with a supported unit ('-1MB', '-35B', '-120KB') is not greater than 0MB. */
  lemma {:induction false} NegativeAmountErrors(field: string, q: Quantity)
    requires WellFormed(q) && q.negative
    ensures ByteFieldErrors(field, Some(Str(Render(q)))) == [field + NOT_GREATER_THAN_ZERO_MB]
  {
    ParseRendered(q);
    assert Render(q)[0] == '-';
    var mb := Megabytes(q);
    VisibleAmountErrors(field, Render(q), mb);
  }

  // -------------------------------------------------------------- instances

  function IntegerRangeErrors(i: int): seq<string> {
    if i < 0 then [INSTANCES_NEGATIVE] else []
  }

  /** Instances must be an integer (a YAML integer or an integer literal) that is not negative. */
  function InstancesErrors(v: Option<Value>): (errs: seq<string>)
    ensures |errs| <= 1
    ensures errs == [] <==> v.None? || v == Some(Null) || (exists i :: 0 <= i && DenotesInteger(v.value, i))
  {
    match v
    case None => []
    case Some(Null) => []
    case Some(Int(i)) => assert DenotesInteger(Int(i), i); IntegerRangeErrors(i)
    case Some(Float(_)) => [INSTANCES_NOT_AN_INTEGER]
    case Some(Str(s)) =>
      (match ParseIntLiteral(s)
       case Some(i) => assert DenotesInteger(Str(s), i); IntegerRangeErrors(i)
       case None => if IsDecimalFraction(s) then [INSTANCES_NOT_AN_INTEGER] else [INSTANCES_NOT_A_NUMBER])
    case Some(_) => [INSTANCES_NOT_A_NUMBER]
  }

  /** The value is the integer i, written as a number or as an integer literal. */
  predicate DenotesInteger(v: Value, i: int) {
    v == Int(i) || (v.Str? && ParseIntLiteral(v.s) == Some(i))
  }

  // ------------------------------------------------------- other attributes

  /** A buildpack, when given, must be a string. */
  function BuildpackErrors(h: Entries): (errs: seq<string>)
    ensures errs == [] <==> Attribute(h, "buildpack").None? || Attribute(h, "buildpack").value.Str?
    ensures errs != [] ==> errs == [BUILDPACK_NOT_STRING]
  {
    var v := Attribute(h, "buildpack");
    if v.Some? && !v.value.Str? then [BUILDPACK_NOT_STRING] else []
  }

  /** A stack, when given, must be a string. */
  function StackErrors(h: Entries): (errs: seq<string>)
    ensures errs == [] <==> Attribute(h, "stack").None? || Attribute(h, "stack").value.Str?
    ensures errs != [] ==> errs == [STACK_NOT_STRING]
  {
    var v := Attribute(h, "stack");
    if v.Some? && !v.value.Str? then [STACK_NOT_STRING] else []
  }

  predicate StartsWith(s: string, prefix: string) {
    |prefix| <= |s| && s[..|prefix|] == prefix
  }

  /** One differing character rules a prefix out. */
  lemma DifferentPrefix(s: string, prefix: string, i: nat)
    requires i < |prefix| && i < |s| && s[i] != prefix[i]
    ensures !StartsWith(s, prefix)
  {
  }

  /** The one error an environment variable name earns, if any. */
  function EnvKeyError(key: string): (e: Option<string>)
    ensures e.None? <==> 0 < |key| && key != "PORT" && !StartsWith(key, "VCAP_") && !StartsWith(key, "VMC_")
  {
    if |key| == 0 then Some(ENV_KEY_EMPTY)
    else if StartsWith(key, "VCAP_") then Some(ENV_KEY_VCAP)
    else if StartsWith(key, "VMC_") then Some(ENV_KEY_VMC)
    else if key == "PORT" then Some(ENV_KEY_PORT)
    else None
  }

  function EnvKeyErrors(env: Entries): (errs: seq<string>)
    ensures |errs| <= |env|
    ensures errs == [] <==> forall i :: 0 <= i < |env| ==> EnvKeyError(env[i].0).None?
  {
    if env == [] then []
    else
      var first := match EnvKeyError(env[0].0) case Some(e) => [e] case None => [];
      var errs := first + EnvKeyErrors(env[1..]);
      assert forall i :: 1 <= i < |env| ==> env[i] == env[1..][i - 1];
      errs
  }

  /** env, when given, must be a hash whose every variable name is accepted. */
  function EnvErrors(h: Entries): (errs: seq<string>)
    ensures Attribute(h, "env").Some? && !Attribute(h, "env").value.Hash? ==> errs == [ENV_NOT_HASH]
    ensures errs == [] <==>
              || Attribute(h, "env").None?
              || (&& Attribute(h, "env").value.Hash?
                  && forall i :: 0 <= i < |Attribute(h, "env").value.entries| ==>
                       EnvKeyError(Attribute(h, "env").value.entries[i].0).None?)
  {
    match Attribute(h, "env")
    case None => []
    case Some(Hash(env)) => EnvKeyErrors(env)
    case Some(_) => [ENV_NOT_HASH]
  }

  /** Every variable contributes its own errors, independently of the others. */
  lemma {:induction false} EnvKeyErrorsAppend(a: Entries, b: Entries)
    ensures EnvKeyErrors(a + b) == EnvKeyErrors(a) + EnvKeyErrors(b)
  {
    if a != [] {
      assert (a + b)[1..] == a[1..] + b;
      EnvKeyErrorsAppend(a[1..], b);
    } else {
      assert a + b == b;
    }
  }

  /** The text of a route entry's route, "" when it has none. */
  function RouteText(route: Entries): string {
    match Lookup(route, "route")
    case Some(Str(s)) => s
    case _ => ""
  }

  function MalformedRouteMessage(route: string): string {
    "The route '" + route + "' is not a properly formed URL"
  }

  /** The URL parser accepts every route. */
  predicate WellFormedRoutes(routes: seq<Entries>, wellFormedUrl: string -> bool) {
    forall i :: 0 <= i < |routes| ==> wellFormedUrl(RouteText(routes[i]))
  }

  /** One error per route the URL parser rejects, naming that route. */
  function RouteUrlErrors(routes: seq<Entries>, wellFormedUrl: string -> bool): (errs: seq<string>)
    ensures |errs| <= |routes|
    ensures errs == [] <==> WellFormedRoutes(routes, wellFormedUrl)
    ensures forall e :: e in errs ==>
              exists i :: 0 <= i < |routes| && !wellFormedUrl(RouteText(routes[i])) && e == MalformedRouteMessage(RouteText(routes[i]))
  {
    if routes == [] then []
    else
      var text := RouteText(routes[0]);
      var rest := RouteUrlErrors(routes[1..], wellFormedUrl);
      assert forall i :: 1 <= i < |routes| ==> routes[i] == routes[1..][i - 1];
      (if wellFormedUrl(text) then [] else [MalformedRouteMessage(text)]) + rest
  }

  /** Routes must be a list of route hashes whose routes are well-formed URLs. */
  function RouteErrors(h: Entries, wellFormedUrl: string -> bool): (errs: seq<string>)
    ensures Attribute(h, "routes").Some? && HashItems(Attribute(h, "routes").value).None? ==> errs == [ROUTES_NOT_HASHES]
    ensures errs == [] <==>
              || Attribute(h, "routes").None?
              || (&& HashItems(Attribute(h, "routes").value).Some?
                  && WellFormedRoutes(HashItems(Attribute(h, "routes").value).value, wellFormedUrl))
  {
    match Attribute(h, "routes")
    case None => []
    case Some(v) =>
      match HashItems(v)
      case Some(routes) => RouteUrlErrors(routes, wellFormedUrl)
      case None => [ROUTES_NOT_HASHES]
  }

  /** no-route, when given, must be a boolean, and no-route: true rules out routes. */
  function NoRouteErrors(h: Entries): (errs: seq<string>)
    ensures |errs| <= 1
    ensures Attribute(h, "no_route").Some? && !Attribute(h, "no_route").value.Bool? ==> errs == [NO_ROUTE_NOT_BOOLEAN]
    ensures Attribute(h, "no_route") == Some(Bool(true)) && Requested(h, "routes") ==> errs == [NO_ROUTE_WITH_ROUTES]
    ensures errs == [] <==>
              && (Attribute(h, "no_route").None? || Attribute(h, "no_route").value.Bool?)
              && !(Attribute(h, "no_route") == Some(Bool(true)) && Requested(h, "routes"))
  {
    var v := Attribute(h, "no_route");
    (if v.Some? && !v.value.Bool? then [NO_ROUTE_NOT_BOOLEAN] else [])
    + (if v == Some(Bool(true)) && Requested(h, "routes") then [NO_ROUTE_WITH_ROUTES] else [])
  }

  /** random-route, when given, must be a boolean; it may be combined with routes. */
  function RandomRouteErrors(h: Entries): (errs: seq<string>)
    ensures errs == [] <==> Attribute(h, "random_route").None? || Attribute(h, "random_route").value.Bool?
    ensures errs != [] ==> errs == [RANDOM_ROUTE_NOT_BOOLEAN]
  {
    var v := Attribute(h, "random_route");
    if v.Some? && !v.value.Bool? then [RANDOM_ROUTE_NOT_BOOLEAN] else []
  }

  /** services, when given, must be a list. */
  function ServicesErrors(h: Entries): (errs: seq<string>)
    ensures errs == [] <==> Attribute(h, "services").None? || Attribute(h, "services").value.List?
    ensures errs != [] ==> errs == [SERVICES_NOT_LIST]
  {
    var v := Attribute(h, "services");
    if v.Some? && !v.value.List? then [SERVICES_NOT_LIST] else []
  }

  // -------------------------------------------------------------- processes

  /** The scale attributes of the app or of one process: instances, memory, disk_quota. */
  function ScaleErrors(h: Entries): (errs: seq<string>)
    ensures |errs| <= 3
  {
    InstancesErrors(Attribute(h, "instances"))
    + ByteFieldErrors("Memory", Attribute(h, "memory"))
    + ByteFieldErrors("Disk quota", Attribute(h, "disk_quota"))
  }

  /** A process lacks a type when none is written or the one written is blank (false, blank text, [] or {}). */
  predicate HasBlankType(p: Entries) {
    Attribute(p, "type").None? || IsBlank(Attribute(p, "type").value)
  }

  /** The non-blank string types of the processes, in the order written. */
  function DeclaredTypes(procs: seq<Entries>): (types: seq<string>)
    ensures |types| <= |procs|
  {
    if procs == [] then [] else DeclaredType(procs[0]) + DeclaredTypes(procs[1..])
  }

  /** The type of one process when it is a non-blank string. */
  function DeclaredType(p: Entries): (types: seq<string>)
    ensures |types| <= 1
  {
    match Attribute(p, "type")
    case Some(Str(s)) => if IsBlankText(s) then [] else [s]
    case _ => []
  }

  /** How often t occurs in s. */
  function Occurrences(s: seq<string>, t: string): nat {
    if s == [] then 0 else (if s[0] == t then 1 else 0) + Occurrences(s[1..], t)
  }

  function Without(s: seq<string>, t: string): (r: seq<string>)
    ensures |r| <= |s|
    ensures forall x :: x in r <==> x in s && x != t
  {
    if s == [] then []
    else (if s[0] == t then [] else [s[0]]) + Without(s[1..], t)
  }

  /** Each element of s once, in order of first appearance (Enumerable#uniq). */
  function Distinct(s: seq<string>): (r: seq<string>)
    ensures forall x :: x in r <==> x in s
    decreases |s|
  {
    if s == [] then [] else [s[0]] + Distinct(Without(s[1..], s[0]))
  }

  function KeepRepeated(candidates: seq<string>, s: seq<string>): (r: seq<string>) {
    if candidates == [] then []
    else (if 1 < Occurrences(s, candidates[0]) then [candidates[0]] else []) + KeepRepeated(candidates[1..], s)
  }

  /** The types written more than once, each listed once, in order of first appearance. */
  function DuplicateTypes(types: seq<string>): seq<string> {
    KeepRepeated(Distinct(types), types)
  }

  function DuplicateTypeErrors(dups: seq<string>): (errs: seq<string>)
    ensures |errs| == |dups|
    ensures forall i :: 0 <= i < |dups| ==> errs[i] == dups[i] + DUPLICATE_PROCESS
  {
    seq(|dups|, i requires 0 <= i < |dups| => dups[i] + DUPLICATE_PROCESS)
  }

  function ProcessAttributeErrors(procs: seq<Entries>): seq<string> {
    if procs == [] then [] else ScaleErrors(procs[0]) + ProcessAttributeErrors(procs[1..])
  }

  /** The processes' scale attributes give no error exactly when no process's do. */
  lemma ProcessAttributeErrorsEmpty(procs: seq<Entries>)
    ensures ProcessAttributeErrors(procs) == [] <==> forall i :: 0 <= i < |procs| ==> ScaleErrors(procs[i]) == []
  {
    var errs := ScaleErrorLists(procs);
    ProcessAttributeErrorsFlatten(procs);
    FlattenEmpty(errs);
  }

  /** Each process's scale errors, in order. */
  function ScaleErrorLists(procs: seq<Entries>): (errs: seq<seq<string>>)
    ensures |errs| == |procs| && forall i :: 0 <= i < |procs| ==> errs[i] == ScaleErrors(procs[i])
  {
    seq(|procs|, i requires 0 <= i < |procs| => ScaleErrors(procs[i]))
  }

  function Flatten(errs: seq<seq<string>>): seq<string> {
    if errs == [] then [] else errs[0] + Flatten(errs[1..])
  }

  lemma {:induction false} ProcessAttributeErrorsFlatten(procs: seq<Entries>)
    ensures ProcessAttributeErrors(procs) == Flatten(ScaleErrorLists(procs))
  {
    if procs != [] {
      ProcessAttributeErrorsFlatten(procs[1..]);
      assert ScaleErrorLists(procs)[1..] == ScaleErrorLists(procs[1..]);
    }
  }

  /** A flattened list of error lists is empty exactly when each list is. */
  lemma {:induction false} FlattenEmpty(errs: seq<seq<string>>)
    ensures Flatten(errs) == [] <==> forall i :: 0 <= i < |errs| ==> errs[i] == []
  {
    if errs != [] {
      FlattenEmpty(errs[1..]);
      EmptyConcat(errs[0], Flatten(errs[1..]));
      assert forall i :: 1 <= i < |errs| ==> errs[i] == errs[1..][i - 1];
    }
  }

  lemma EmptyConcat(a: seq<string>, b: seq<string>)
    ensures a + b == [] <==> a == [] && b == []
  {
    if a + b == [] {
      assert |a| + |b| == 0;
    }
  }

  /** One error, however many processes lack a type. */
  function MissingTypeErrors(procs: seq<Entries>): (errs: seq<string>)
    ensures |errs| <= 1
    ensures errs == [] <==> forall i :: 0 <= i < |procs| ==> !HasBlankType(procs[i])
  {
    if exists i :: 0 <= i < |procs| && HasBlankType(procs[i]) then [PROCESS_WITHOUT_TYPE] else []
  }

  function ProcessListErrors(procs: seq<Entries>): seq<string> {
    MissingTypeErrors(procs) + DuplicateTypeErrors(DuplicateTypes(DeclaredTypes(procs))) + ProcessAttributeErrors(procs)
  }

  /** processes, when given, must be a list of process hashes, each one valid. */
  function ProcessesErrors(h: Entries): (errs: seq<string>)
    ensures Attribute(h, "processes").Some? && HashItems(Attribute(h, "processes").value).None? ==> errs == [PROCESSES_NOT_ARRAY]
    ensures errs == [] <==>
              || Attribute(h, "processes").None?
              || (&& HashItems(Attribute(h, "processes").value).Some?
                  && ProcessListErrors(HashItems(Attribute(h, "processes").value).value) == [])
  {
    match Attribute(h, "processes")
    case None => []
    case Some(v) =>
      match HashItems(v)
      case Some(procs) => ProcessListErrors(procs)
      case None => [PROCESSES_NOT_ARRAY]
  }

  // ------------------------------------------------------------ the message

  /**
   * All errors of a manifest message, field by field. Whether a route is a
   * well-formed URL is decided by a URI parser that is a parameter here.
   */
  function Errors(h: Entries, wellFormedUrl: string -> bool): seq<string> {
    ScaleErrors(h) + BuildpackErrors(h) + StackErrors(h) + EnvErrors(h)
    + RouteErrors(h, wellFormedUrl) + NoRouteErrors(h) + RandomRouteErrors(h)
    + ServicesErrors(h) + ProcessesErrors(h)
  }

  predicate IsValid(h: Entries, wellFormedUrl: string -> bool) {
    Errors(h, wellFormedUrl) == []
  }

  // ------------------------------------------------- the rules, declaratively

  /** An amount is absent or blank, or converts to at least one megabyte. */
  predicate AcceptedAmount(v: Option<Value>) {
    v.None? || IsBlank(v.value) || (MegabytesOf(v).Some? && 1 <= MegabytesOf(v).value)
  }

  /** No type occurs twice. */
  ghost predicate TypesDistinct(types: seq<string>) {
    forall t :: Occurrences(types, t) <= 1
  }

  /** Every process has a type, no type is written twice, and every process's scale is valid. */
  ghost predicate AcceptedProcesses(procs: seq<Entries>) {
    && (forall i :: 0 <= i < |procs| ==> !HasBlankType(procs[i]))
    && TypesDistinct(DeclaredTypes(procs))
    && (forall i :: 0 <= i < |procs| ==> ScaleErrors(procs[i]) == [])
  }

  /** The rules a manifest message must meet, attribute by attribute. */
  ghost predicate Conforms(h: Entries, wellFormedUrl: string -> bool) {
    var instances := Attribute(h, "instances");
    var env := Attribute(h, "env");
    var routes := Attribute(h, "routes");
    var noRoute := Attribute(h, "no_route");
    var processes := Attribute(h, "processes");
    && (instances.None? || exists i :: 0 <= i && DenotesInteger(instances.value, i))
    && AcceptedAmount(Attribute(h, "memory"))
    && AcceptedAmount(Attribute(h, "disk_quota"))
    && (Attribute(h, "buildpack").None? || Attribute(h, "buildpack").value.Str?)
    && (Attribute(h, "stack").None? || Attribute(h, "stack").value.Str?)
    && (env.None? || (env.value.Hash? && forall i :: 0 <= i < |env.value.entries| ==> EnvKeyError(env.value.entries[i].0).None?))
    && (routes.None? || (HashItems(routes.value).Some? && WellFormedRoutes(HashItems(routes.value).value, wellFormedUrl)))
    && (noRoute.None? || noRoute.value.Bool?)
    && !(noRoute == Some(Bool(true)) && Requested(h, "routes"))
    && (Attribute(h, "random_route").None? || Attribute(h, "random_route").value.Bool?)
    && (Attribute(h, "services").None? || Attribute(h, "services").value.List?)
    && (processes.None? || (HashItems(processes.value).Some? && AcceptedProcesses(HashItems(processes.value).value)))
  }

  /** The message is valid exactly when it meets every rule. */
  lemma ValidExactlyWhenConforms(h: Entries, wellFormedUrl: string -> bool)
    ensures IsValid(h, wellFormedUrl) <==> Conforms(h, wellFormedUrl)
  {
    var scale := ScaleErrors(h);
    var parts := [BuildpackErrors(h), StackErrors(h), EnvErrors(h), RouteErrors(h, wellFormedUrl),
                  NoRouteErrors(h), RandomRouteErrors(h), ServicesErrors(h), ProcessesErrors(h)];
    ConcatEmpty(scale, parts);
    assert Errors(h, wellFormedUrl) == scale + parts[0] + parts[1] + parts[2] + parts[3] + parts[4] + parts[5] + parts[6] + parts[7];
    ScaleEmpty(h);
    var processes := Attribute(h, "processes");
    if processes.Some? && HashItems(processes.value).Some? {
      ProcessListErrorsEmpty(HashItems(processes.value).value);
    }
  }

  /** The app's scale is valid exactly when its instances are and both its amounts are accepted. */
  lemma ScaleEmpty(h: Entries)
    ensures ScaleErrors(h) == [] <==>
              && (Attribute(h, "instances").None? || exists i :: 0 <= i && DenotesInteger(Attribute(h, "instances").value, i))
              && AcceptedAmount(Attribute(h, "memory"))
              && AcceptedAmount(Attribute(h, "disk_quota"))
  {
    var instances := InstancesErrors(Attribute(h, "instances"));
    var memory := ByteFieldErrors("Memory", Attribute(h, "memory"));
    var disk := ByteFieldErrors("Disk quota", Attribute(h, "disk_quota"));
    EmptyConcat(instances + memory, disk);
    EmptyConcat(instances, memory);
  }

  /** A concatenation of nine error lists is empty exactly when each one is. */
  lemma ConcatEmpty(first: seq<string>, parts: seq<seq<string>>)
    requires |parts| == 8
    ensures first + parts[0] + parts[1] + parts[2] + parts[3] + parts[4] + parts[5] + parts[6] + parts[7] == []
            <==> first == [] && forall k :: 0 <= k < 8 ==> parts[k] == []
  {
    var all := first + parts[0] + parts[1] + parts[2] + parts[3] + parts[4] + parts[5] + parts[6] + parts[7];
    assert |all| == |first| + |parts[0]| + |parts[1]| + |parts[2]| + |parts[3]| + |parts[4]| + |parts[5]| + |parts[6]| + |parts[7]|;
  }

  /** A process list is valid exactly when its processes meet the process rules. */
  lemma ProcessListErrorsEmpty(procs: seq<Entries>)
    ensures ProcessListErrors(procs) == [] <==> AcceptedProcesses(procs)
  {
    ProcessListErrorsSplit(procs);
    NoDuplicateTypes(DeclaredTypes(procs));
    ProcessAttributeErrorsEmpty(procs);
  }

  lemma ProcessListErrorsSplit(procs: seq<Entries>)
    ensures ProcessListErrors(procs) == [] <==>
              && MissingTypeErrors(procs) == []
              && DuplicateTypes(DeclaredTypes(procs)) == []
              && ProcessAttributeErrors(procs) == []
  {
    var missing := MissingTypeErrors(procs);
    var dups := DuplicateTypeErrors(DuplicateTypes(DeclaredTypes(procs)));
    EmptyConcat(missing + dups, ProcessAttributeErrors(procs));
    EmptyConcat(missing, dups);
  }

  /** No type is reported as a duplicate exactly when no type occurs twice. */
  lemma NoDuplicateTypes(types: seq<string>)
    ensures DuplicateTypes(types) == [] <==> TypesDistinct(types)
  {
    var dups := DuplicateTypes(types);
    if dups == [] {
      forall t
        ensures Occurrences(types, t) <= 1
      {
        DuplicateTypesExactlyOnce(types, t);
      }
    } else {
      var t := dups[0];
      OccurrencesPositive(dups, t);
      DuplicateTypesExactlyOnce(types, t);
    }
  }

  // ------------------------------------------------- duplicate type counting

  lemma {:induction false} OccurrencesWithout(s: seq<string>, t: string, x: string)
    ensures Occurrences(Without(s, t), x) == if x == t then 0 else Occurrences(s, x)
  {
    if s != [] {
      OccurrencesWithout(s[1..], t, x);
      OccurrencesAppend(if s[0] == t then [] else [s[0]], Without(s[1..], t), x);
    }
  }

  lemma {:induction false} OccurrencesAppend(a: seq<string>, b: seq<string>, x: string)
    ensures Occurrences(a + b, x) == Occurrences(a, x) + Occurrences(b, x)
  {
    if a != [] {
      assert (a + b)[1..] == a[1..] + b;
      OccurrencesAppend(a[1..], b, x);
    } else {
      assert a + b == b;
    }
  }

  /** Distinct lists every element of s exactly once. */
  lemma {:induction false} DistinctOnce(s: seq<string>, x: string)
    ensures Occurrences(Distinct(s), x) == if x in s then 1 else 0
    decreases |s|
  {
    if s != [] {
      var rest := Without(s[1..], s[0]);
      DistinctOnce(rest, x);
      OccurrencesAppend([s[0]], Distinct(rest), x);
    }
  }

  lemma {:induction false} KeepRepeatedCount(candidates: seq<string>, s: seq<string>, x: string)
    ensures Occurrences(KeepRepeated(candidates, s), x)
            == if 1 < Occurrences(s, x) then Occurrences(candidates, x) else 0
  {
    if candidates != [] {
      var head := if 1 < Occurrences(s, candidates[0]) then [candidates[0]] else [];
      KeepRepeatedCount(candidates[1..], s, x);
      OccurrencesAppend(head, KeepRepeated(candidates[1..], s), x);
    }
  }

  lemma {:induction false} OccurrencesPositive(s: seq<string>, x: string)
    ensures 0 < Occurrences(s, x) <==> x in s
  {
    if s != [] {
      OccurrencesPositive(s[1..], x);
    }
  }

  /** A type written more than once is reported exactly once; any other type not at all. */
  lemma DuplicateTypesExactlyOnce(types: seq<string>, t: string)
    ensures Occurrences(DuplicateTypes(types), t) == if 1 < Occurrences(types, t) then 1 else 0
  {
    KeepRepeatedCount(Distinct(types), types, t);
    DistinctOnce(types, t);
    OccurrencesPositive(types, t);
  }

  lemma {:induction false} DuplicateMessageInjective(a: string, b: string)
    requires a + DUPLICATE_PROCESS == b + DUPLICATE_PROCESS
    ensures a == b
  {
    assert |a| == |b|;
    assert a == (a + DUPLICATE_PROCESS)[..|a|];
  }

  lemma {:induction false} ErrorOccurrences(dups: seq<string>, t: string)
    ensures Occurrences(DuplicateTypeErrors(dups), t + DUPLICATE_PROCESS) == Occurrences(dups, t)
  {
    if dups != [] {
      assert DuplicateTypeErrors(dups)[1..] == DuplicateTypeErrors(dups[1..]);
      ErrorOccurrences(dups[1..], t);
      if dups[0] + DUPLICATE_PROCESS == t + DUPLICATE_PROCESS {
        DuplicateMessageInjective(dups[0], t);
      }
    }
  }

  /** Each repeated process type earns exactly one "may only be present once" error, however often it repeats. */
  lemma DuplicateTypeErrorCount(procs: seq<Entries>, t: string)
    ensures var types := DeclaredTypes(procs);
            Occurrences(DuplicateTypeErrors(DuplicateTypes(types)), t + DUPLICATE_PROCESS)
            == if 1 < Occurrences(types, t) then 1 else 0
  {
    var types := DeclaredTypes(procs);
    ErrorOccurrences(DuplicateTypes(types), t);
    DuplicateTypesExactlyOnce(types, t);
  }
}
