/**
 * Concrete manifests and what validation and translation make of them.
 */
module ManifestExamples {
  import opened Wrappers
  import opened Text
  import opened ManifestValue
  import opened ByteConverter
  import opened ManifestValidation
  import opened ManifestMessages

  /** A whole amount with a supported unit converts to the floor of its size in mebibytes. */
  lemma {:induction false} WholeAmountConverts(n: nat, u: Unit)
    ensures MegabytesOf(Some(Str(NatToDigits(n) + UnitName(u)))) == Some(n * Multiplier(u) / MEGABYTE)
  {
    ConvertWholeAmount(n, u);
    LeadingDigit(NatToDigits(n), UnitName(u));
    VisibleMegabytes(NatToDigits(n) + UnitName(u), n * Multiplier(u) / MEGABYTE);
  }

  lemma VisibleMegabytes(s: string, mb: int)
    requires 0 < |s| && !IsSpace(s[0])
    requires ToMegabytes(s) == Success(mb)
    ensures MegabytesOf(Some(Str(s))) == Some(mb)
  {
    ConvertVisibleText(s);
  }

  lemma {:induction false} AmountExample(n: nat, u: Unit, text: string, mb: int)
    requires NatToDigits(n) + UnitName(u) == text
    requires n * Multiplier(u) / MEGABYTE == mb
    ensures MegabytesOf(Some(Str(text))) == Some(mb)
  {
    WholeAmountConverts(n, u);
  }

  lemma GigabyteMultiplier()
    ensures Multiplier(GB) == 1073741824 && UnitName(GB) == "GB"
  {
  }

  /** 200GB is 204800 megabytes. */
  lemma Gigabytes200()
    ensures MegabytesOf(Some(Str("200GB"))) == Some(204800)
  {
    assert NatToDigits(200) == "200";
    GigabyteMultiplier();
    AmountExample(200, GB, "200GB", 204800);
  }

  /** 1000GB is 1024000 megabytes. */
  lemma Gigabytes1000()
    ensures MegabytesOf(Some(Str("1000GB"))) == Some(1024000)
  {
    assert NatToDigits(1000) == "1000";
    GigabyteMultiplier();
    AmountExample(1000, GB, "1000GB", 1024000);
  }

  /** 5GB is 5120 megabytes. */
  lemma Gigabytes5()
    ensures MegabytesOf(Some(Str("5GB"))) == Some(5120)
  {
    assert NatToDigits(5) == "5";
    GigabyteMultiplier();
    AmountExample(5, GB, "5GB", 5120);
  }

  /** 30GB is 30720 megabytes. */
  lemma Gigabytes30()
    ensures MegabytesOf(Some(Str("30GB"))) == Some(30720)
  {
    assert NatToDigits(30) == "30";
    GigabyteMultiplier();
    AmountExample(30, GB, "30GB", 30720);
  }

  lemma Digits3145728()
    ensures NatToDigits(3145728) == "3145728"
  {
    assert NatToDigits(3) == "3";
    assert NatToDigits(31) == "31";
    assert NatToDigits(314) == "314";
    assert NatToDigits(3145) == "3145";
    assert NatToDigits(31457) == "31457";
    assert NatToDigits(314572) == "314572";
    assert NatToDigits(3145728) == "3145728";
  }

  lemma Digits7340032()
    ensures NatToDigits(7340032) == "7340032"
  {
    assert NatToDigits(7) == "7";
    assert NatToDigits(73) == "73";
    assert NatToDigits(734) == "734";
    assert NatToDigits(7340) == "7340";
    assert NatToDigits(73400) == "73400";
    assert NatToDigits(734003) == "734003";
    assert NatToDigits(7340032) == "7340032";
  }

  lemma Digits1048576()
    ensures NatToDigits(1048576) == "1048576"
  {
    assert NatToDigits(1) == "1";
    assert NatToDigits(10) == "10";
    assert NatToDigits(104) == "104";
    assert NatToDigits(1048) == "1048";
    assert NatToDigits(10485) == "10485";
    assert NatToDigits(104857) == "104857";
    assert NatToDigits(1048576) == "1048576";
  }

  lemma Digits1048575()
    ensures NatToDigits(1048575) == "1048575"
  {
    assert NatToDigits(1) == "1";
    assert NatToDigits(10) == "10";
    assert NatToDigits(104) == "104";
    assert NatToDigits(1048) == "1048";
    assert NatToDigits(10485) == "10485";
    assert NatToDigits(104857) == "104857";
    assert NatToDigits(1048575) == "1048575";
  }

  /** Byte amounts are floored: 3145728B, 7340032B and 1048576B are 3, 7 and 1 megabytes; 1048575B is 0. */
  lemma Bytes3145728()
    ensures MegabytesOf(Some(Str("3145728B"))) == Some(3)
  {
    Digits3145728();
    assert NatToDigits(3145728) + UnitName(B) == "3145728B";
    assert 3145728 * Multiplier(B) / MEGABYTE == 3;
    AmountExample(3145728, B, "3145728B", 3);
  }

  lemma Bytes7340032()
    ensures MegabytesOf(Some(Str("7340032B"))) == Some(7)
  {
    Digits7340032();
    assert NatToDigits(7340032) + UnitName(B) == "7340032B";
    assert 7340032 * Multiplier(B) / MEGABYTE == 7;
    AmountExample(7340032, B, "7340032B", 7);
  }

  lemma Bytes1048576()
    ensures MegabytesOf(Some(Str("1048576B"))) == Some(1)
  {
    Digits1048576();
    assert NatToDigits(1048576) + UnitName(B) == "1048576B";
    assert 1048576 * Multiplier(B) / MEGABYTE == 1;
    AmountExample(1048576, B, "1048576B", 1);
  }

  lemma Bytes1048575()
    ensures MegabytesOf(Some(Str("1048575B"))) == Some(0)
  {
    Digits1048575();
    assert NatToDigits(1048575) + UnitName(B) == "1048575B";
    assert 1048575 * Multiplier(B) / MEGABYTE == 0;
    AmountExample(1048575, B, "1048575B", 0);
  }

  // ------------------------------------------------------------ validation

  predicate WithoutRoutesOrProcesses(h: Entries) {
    !Requested(h, "routes") && !Requested(h, "no_route") && !Requested(h, "random_route")
    && !Requested(h, "services") && !Requested(h, "processes")
  }

  predicate OnlyScaleAttributes(h: Entries) {
    WithoutRoutesOrProcesses(h)
    && !Requested(h, "buildpack") && !Requested(h, "stack") && !Requested(h, "env")
  }

  /** Attributes that are not written contribute no errors. */
  lemma UnrequestedRouteAndProcessErrors(h: Entries, wellFormedUrl: string -> bool)
    requires WithoutRoutesOrProcesses(h)
    ensures RouteErrors(h, wellFormedUrl) == [] && NoRouteErrors(h) == [] && RandomRouteErrors(h) == []
    ensures ServicesErrors(h) == [] && ProcessesErrors(h) == []
  {
    assert Attribute(h, "routes").None? && Attribute(h, "no_route").None? && Attribute(h, "random_route").None?;
    assert Attribute(h, "services").None? && Attribute(h, "processes").None?;
  }

  lemma AppAttributeErrors(h: Entries, wellFormedUrl: string -> bool)
    requires WithoutRoutesOrProcesses(h)
    ensures Errors(h, wellFormedUrl) == ScaleErrors(h) + BuildpackErrors(h) + StackErrors(h) + EnvErrors(h)
  {
    UnrequestedRouteAndProcessErrors(h, wellFormedUrl);
    var app := ScaleErrors(h) + BuildpackErrors(h) + StackErrors(h) + EnvErrors(h);
    assert Errors(h, wellFormedUrl) == app + [] + [] + [] + [] + [];
  }

  lemma ScaleAttributeErrors(h: Entries, wellFormedUrl: string -> bool)
    requires OnlyScaleAttributes(h)
    ensures Errors(h, wellFormedUrl) == ScaleErrors(h)
  {
    AppAttributeErrors(h, wellFormedUrl);
  }

  const SIX_BAD_ATTRIBUTES: Entries :=
    [("instances", Int(-1)), ("memory", Int(120)), ("disk_quota", Str("-120KB")),
     ("buildpack", Int(99)), ("stack", Int(42)), ("env", List([Str("not"), Str("a"), Str("hash")]))]

  lemma SixBadAmounts()
    ensures Attribute(SIX_BAD_ATTRIBUTES, "instances") == Some(Int(-1))
    ensures Attribute(SIX_BAD_ATTRIBUTES, "memory") == Some(Int(120))
    ensures Attribute(SIX_BAD_ATTRIBUTES, "disk_quota") == Some(Str("-120KB"))
  {
    LookupLast(SIX_BAD_ATTRIBUTES, 0);
    LookupLast(SIX_BAD_ATTRIBUTES, 1);
    LookupLast(SIX_BAD_ATTRIBUTES, 2);
  }

  lemma NegativeKilobytes()
    ensures ByteFieldErrors("Disk quota", Some(Str("-120KB"))) == ["Disk quota" + NOT_GREATER_THAN_ZERO_MB]
  {
    var q := Quantity(true, "120", "", "KB", KB);
    assert WellFormed(q);
    assert Render(q) == "-120KB";
    NegativeAmountErrors("Disk quota", q);
  }

  predicate SixBadAttributes(h: Entries) {
    && Attribute(h, "instances") == Some(Int(-1))
    && Attribute(h, "memory") == Some(Int(120))
    && Attribute(h, "disk_quota") == Some(Str("-120KB"))
    && Attribute(h, "buildpack") == Some(Int(99))
    && Attribute(h, "stack") == Some(Int(42))
    && Attribute(h, "env") == Some(List([Str("not"), Str("a"), Str("hash")]))
    && WithoutRoutesOrProcesses(h)
  }

  lemma SixBadOthers()
    ensures Attribute(SIX_BAD_ATTRIBUTES, "buildpack") == Some(Int(99))
    ensures Attribute(SIX_BAD_ATTRIBUTES, "stack") == Some(Int(42))
    ensures Attribute(SIX_BAD_ATTRIBUTES, "env") == Some(List([Str("not"), Str("a"), Str("hash")]))
  {
    SixBadBuildpack();
    SixBadStack();
    SixBadEnv();
  }

  lemma SixBadBuildpack()
    ensures Attribute(SIX_BAD_ATTRIBUTES, "buildpack") == Some(Int(99))
  {
    LookupLast(SIX_BAD_ATTRIBUTES, 3);
  }

  lemma SixBadStack()
    ensures Attribute(SIX_BAD_ATTRIBUTES, "stack") == Some(Int(42))
  {
    LookupLast(SIX_BAD_ATTRIBUTES, 4);
  }

  lemma SixBadEnv()
    ensures Attribute(SIX_BAD_ATTRIBUTES, "env") == Some(List([Str("not"), Str("a"), Str("hash")]))
  {
  }

  lemma SixBadUnrequested()
    ensures WithoutRoutesOrProcesses(SIX_BAD_ATTRIBUTES)
  {
    KeysAmong(SIX_BAD_ATTRIBUTES, {"instances", "memory", "disk_quota", "buildpack", "stack", "env"});
  }

  /** A key outside the keys written is not requested. */
  lemma KeysAmong(h: Entries, keys: set<string>)
    requires forall i :: 0 <= i < |h| ==> h[i].0 in keys
    requires "routes" !in keys && "no_route" !in keys && "random_route" !in keys
    requires "services" !in keys && "processes" !in keys
    ensures WithoutRoutesOrProcesses(h)
  {
  }

  /** The manifest of six bad attributes is one of those SixErrors speaks about. */
  lemma SixBadAttributesWritten()
    ensures SixBadAttributes(SIX_BAD_ATTRIBUTES)
  {
    SixBadAmounts();
    SixBadOthers();
    SixBadUnrequested();
  }

  lemma SixBadOtherErrors(h: Entries)
    requires SixBadAttributes(h)
    ensures BuildpackErrors(h) == [BUILDPACK_NOT_STRING]
    ensures StackErrors(h) == [STACK_NOT_STRING]
    ensures EnvErrors(h) == [ENV_NOT_HASH]
  {
    NonStringBuildpack(h, Int(99));
    NonStringStack(h, Int(42));
    NonHashEnv(h, List([Str("not"), Str("a"), Str("hash")]));
  }

  lemma NonStringBuildpack(h: Entries, v: Value)
    requires Attribute(h, "buildpack") == Some(v) && !v.Str?
    ensures BuildpackErrors(h) == [BUILDPACK_NOT_STRING]
  {
  }

  lemma NonStringStack(h: Entries, v: Value)
    requires Attribute(h, "stack") == Some(v) && !v.Str?
    ensures StackErrors(h) == [STACK_NOT_STRING]
  {
  }

  lemma NonHashEnv(h: Entries, v: Value)
    requires Attribute(h, "env") == Some(v) && !v.Hash?
    ensures EnvErrors(h) == [ENV_NOT_HASH]
  {
  }

  lemma SixBadScaleErrors(h: Entries)
    requires SixBadAttributes(h)
    ensures ScaleErrors(h) == [INSTANCES_NEGATIVE, "Memory" + UNSUPPORTED_UNIT, "Disk quota" + NOT_GREATER_THAN_ZERO_MB]
  {
    ScaleErrorsOf(h, Int(-1), Int(120), Str("-120KB"));
    NegativeInstances();
    BareIntegerAmount("Memory", 120);
    NegativeKilobytes();
    ThreeMessages(InstancesErrors(Some(Int(-1))), ByteFieldErrors("Memory", Some(Int(120))),
      ByteFieldErrors("Disk quota", Some(Str("-120KB"))));
  }

  lemma ScaleErrorsOf(h: Entries, instances: Value, memory: Value, disk: Value)
    requires Attribute(h, "instances") == Some(instances)
    requires Attribute(h, "memory") == Some(memory) && Attribute(h, "disk_quota") == Some(disk)
    ensures ScaleErrors(h)
            == InstancesErrors(Some(instances)) + ByteFieldErrors("Memory", Some(memory))
               + ByteFieldErrors("Disk quota", Some(disk))
  {
  }

  lemma NegativeInstances()
    ensures InstancesErrors(Some(Int(-1))) == [INSTANCES_NEGATIVE]
  {
  }

  lemma ThreeMessages(instances: seq<string>, memory: seq<string>, disk: seq<string>)
    requires instances == [INSTANCES_NEGATIVE] && memory == ["Memory" + UNSUPPORTED_UNIT]
    requires disk == ["Disk quota" + NOT_GREATER_THAN_ZERO_MB]
    ensures instances + memory + disk
            == [INSTANCES_NEGATIVE, "Memory" + UNSUPPORTED_UNIT, "Disk quota" + NOT_GREATER_THAN_ZERO_MB]
  {
  }

  lemma SixMessages(scale: seq<string>, buildpack: seq<string>, stack: seq<string>, env: seq<string>)
    requires scale == [INSTANCES_NEGATIVE, "Memory" + UNSUPPORTED_UNIT, "Disk quota" + NOT_GREATER_THAN_ZERO_MB]
    requires buildpack == [BUILDPACK_NOT_STRING] && stack == [STACK_NOT_STRING] && env == [ENV_NOT_HASH]
    ensures scale + buildpack + stack + env
            == [INSTANCES_NEGATIVE, "Memory" + UNSUPPORTED_UNIT, "Disk quota" + NOT_GREATER_THAN_ZERO_MB,
                BUILDPACK_NOT_STRING, STACK_NOT_STRING, ENV_NOT_HASH]
  {
  }

  /** Six invalid attributes give six errors, one each. */
  lemma SixErrors(h: Entries, wellFormedUrl: string -> bool)
    requires SixBadAttributes(h)
    ensures Errors(h, wellFormedUrl)
            == [INSTANCES_NEGATIVE, "Memory" + UNSUPPORTED_UNIT, "Disk quota" + NOT_GREATER_THAN_ZERO_MB,
                BUILDPACK_NOT_STRING, STACK_NOT_STRING, ENV_NOT_HASH]
  {
    AppAttributeErrors(h, wellFormedUrl);
    SixBadScaleErrors(h);
    SixBadOtherErrors(h);
    SixMessages(ScaleErrors(h), BuildpackErrors(h), StackErrors(h), EnvErrors(h));
  }

  const BAD_KEYS: Entries :=
    [("", Str("null-key")), ("VCAP_BAD_KEY", Int(1)),
     ("VMC_BAD_KEY", List([Str("hey"), Str("it's"), Str("an"), Str("array")])), ("PORT", Int(5))]

  lemma BadKeyErrors()
    ensures EnvKeyErrors(BAD_KEYS)
            == ["Env key must be a minimum length of 1", "Env cannot start with VCAP_",
                "Env cannot start with VMC_", "Env cannot set PORT"]
  {
    var env := BAD_KEYS;
    assert EnvKeyError(env[0].0) == Some(ENV_KEY_EMPTY);
    assert EnvKeyError(env[1].0) == Some(ENV_KEY_VCAP);
    DifferentPrefix("VMC_BAD_KEY", "VCAP_", 1);
    assert EnvKeyError(env[2].0) == Some(ENV_KEY_VMC);
    DifferentPrefix("PORT", "VCAP_", 0);
    DifferentPrefix("PORT", "VMC_", 0);
    assert EnvKeyError(env[3].0) == Some(ENV_KEY_PORT);
    assert EnvKeyErrors(env[3..]) == [ENV_KEY_PORT];
    assert EnvKeyErrors(env[2..]) == [ENV_KEY_VMC, ENV_KEY_PORT] by { assert env[2..][1..] == env[3..]; }
    assert EnvKeyErrors(env[1..]) == [ENV_KEY_VCAP, ENV_KEY_VMC, ENV_KEY_PORT] by { assert env[1..][1..] == env[2..]; }
  }

  /** Only env is written, with these variables. */
  predicate EnvOnly(h: Entries, env: Entries) {
    && WithoutRoutesOrProcesses(h)
    && !Requested(h, "instances") && !Requested(h, "memory") && !Requested(h, "disk_quota")
    && !Requested(h, "buildpack") && !Requested(h, "stack")
    && Attribute(h, "env") == Some(Hash(env))
  }

  lemma EnvOnlyErrors(h: Entries, wellFormedUrl: string -> bool, env: Entries)
    requires EnvOnly(h, env)
    ensures Errors(h, wellFormedUrl) == EnvKeyErrors(env)
  {
    AppAttributeErrors(h, wellFormedUrl);
    assert ScaleErrors(h) == [] + [] + [];
    assert BuildpackErrors(h) == [] && StackErrors(h) == [];
  }

  /** Each bad variable name earns its own error. */
  lemma BadEnvironmentKeys(h: Entries, wellFormedUrl: string -> bool)
    requires EnvOnly(h, BAD_KEYS)
    ensures Errors(h, wellFormedUrl)
            == ["Env key must be a minimum length of 1", "Env cannot start with VCAP_",
                "Env cannot start with VMC_", "Env cannot set PORT"]
  {
    EnvOnlyErrors(h, wellFormedUrl, BAD_KEYS);
    BadKeyErrors();
  }

  lemma BadEnvironmentKeysWritten()
    ensures EnvOnly([("env", Hash(BAD_KEYS))], BAD_KEYS)
  {
  }

  const REPEATED_TYPES: seq<Entries> :=
    [[("type", Str("foo")), ("instances", Int(3))], [("type", Str("foo")), ("instances", Int(1))],
     [("type", Str("bob")), ("instances", Int(5))], [("type", Str("bob")), ("instances", Int(1))]]

  /** Processes 0 and 1 have type a, processes 2 and 3 type b. */
  predicate TypedTwiceEach(procs: seq<Entries>, a: string, b: string) {
    && |procs| == 4
    && Attribute(procs[0], "type") == Some(Str(a)) && Attribute(procs[1], "type") == Some(Str(a))
    && Attribute(procs[2], "type") == Some(Str(b)) && Attribute(procs[3], "type") == Some(Str(b))
  }

  /** The scale attributes of four processes are valid. */
  predicate ValidScales(procs: seq<Entries>) {
    && |procs| == 4
    && ScaleErrors(procs[0]) == [] && ScaleErrors(procs[1]) == []
    && ScaleErrors(procs[2]) == [] && ScaleErrors(procs[3]) == []
  }

  lemma TypedInstances(p: Entries, t: string, n: int)
    requires p == [("type", Str(t)), ("instances", Int(n))] && 0 <= n
    ensures Attribute(p, "type") == Some(Str(t)) && ScaleErrors(p) == []
  {
    TypedEntryAttributes(t, n);
    InstancesOnly(p, n);
  }

  lemma TypedEntryAttributes(t: string, n: int)
    ensures var p := [("type", Str(t)), ("instances", Int(n))];
      && Attribute(p, "type") == Some(Str(t)) && Attribute(p, "instances") == Some(Int(n))
      && Attribute(p, "memory") == None && Attribute(p, "disk_quota") == None
  {
    var p := [("type", Str(t)), ("instances", Int(n))];
    assert p[1..] == [("instances", Int(n))] && p[1..][1..] == [];
    assert Lookup(p, "type") == Some(Str(t));
    assert Lookup(p, "instances") == Some(Int(n));
    assert Lookup(p, "memory") == None;
    assert Lookup(p, "disk_quota") == None;
  }

  /** A process whose only scale attribute is a non-negative instance count has no scale errors. */
  lemma InstancesOnly(p: Entries, n: int)
    requires Attribute(p, "instances") == Some(Int(n)) && 0 <= n
    requires Attribute(p, "memory") == None && Attribute(p, "disk_quota") == None
    ensures ScaleErrors(p) == []
  {
    assert DenotesInteger(Int(n), n);
  }

  lemma RepeatedTypesWritten()
    ensures TypedTwiceEach(REPEATED_TYPES, "foo", "bob") && ProcessAttributeErrors(REPEATED_TYPES) == []
  {
    RepeatedTypesTyped();
    RepeatedTypesScale();
  }

  lemma RepeatedTypesTyped()
    ensures TypedTwiceEach(REPEATED_TYPES, "foo", "bob")
  {
    var procs := REPEATED_TYPES;
    assert Attribute(procs[0], "type") == Some(Str("foo"));
    assert Attribute(procs[1], "type") == Some(Str("foo"));
    assert Attribute(procs[2], "type") == Some(Str("bob"));
    assert Attribute(procs[3], "type") == Some(Str("bob"));
  }

  lemma RepeatedTypesScale()
    ensures ProcessAttributeErrors(REPEATED_TYPES) == []
  {
    RepeatedTypesValid();
    TwiceEachScales(REPEATED_TYPES);
  }

  lemma RepeatedTypesValid()
    ensures ValidScales(REPEATED_TYPES)
  {
    FourTypedScales(REPEATED_TYPES, "foo", "bob", 3, 1, 5, 1);
  }

  /** Four processes that each give a type and a non-negative instance count have valid scales. */
  lemma FourTypedScales(procs: seq<Entries>, a: string, b: string, n0: int, n1: int, n2: int, n3: int)
    requires 0 <= n0 && 0 <= n1 && 0 <= n2 && 0 <= n3 && |procs| == 4
    requires procs[0] == [("type", Str(a)), ("instances", Int(n0))]
    requires procs[1] == [("type", Str(a)), ("instances", Int(n1))]
    requires procs[2] == [("type", Str(b)), ("instances", Int(n2))]
    requires procs[3] == [("type", Str(b)), ("instances", Int(n3))]
    ensures ValidScales(procs)
  {
    TypedInstances(procs[0], a, n0);
    TypedInstances(procs[1], a, n1);
    TypedInstances(procs[2], b, n2);
    TypedInstances(procs[3], b, n3);
  }

  /** A process whose type is written blank (nil, false, blank text, [] or {}) counts as lacking one. */
  lemma BlankTypeIsMissing(procs: seq<Entries>, i: nat, v: Value)
    requires i < |procs| && IsBlank(v) && Lookup(procs[i], "type") == Some(v)
    ensures MissingTypeErrors(procs) == [PROCESS_WITHOUT_TYPE]
  {
    assert HasBlankType(procs[i]);
  }

  lemma {:induction false} TwiceEachDeclared(procs: seq<Entries>, a: string, b: string)
    requires TypedTwiceEach(procs, a, b) && !IsBlankText(a) && !IsBlankText(b)
    ensures DeclaredTypes(procs) == [a, a, b, b]
  {
    assert procs[3..][1..] == [];
    assert DeclaredTypes(procs[3..]) == [b];
    assert procs[2..][1..] == procs[3..];
    assert DeclaredTypes(procs[2..]) == [b, b];
    assert procs[1..][1..] == procs[2..];
    assert DeclaredTypes(procs[1..]) == [a, b, b];
  }

  lemma {:induction false} TwiceEachScales(procs: seq<Entries>)
    requires ValidScales(procs)
    ensures ProcessAttributeErrors(procs) == []
  {
    assert forall i :: 0 <= i < |procs| ==> ScaleErrors(procs[i]) == [] by {
      forall i | 0 <= i < |procs| ensures ScaleErrors(procs[i]) == [] {
        assert i == 0 || i == 1 || i == 2 || i == 3;
      }
    }
    ProcessAttributeErrorsEmpty(procs);
  }

  lemma {:induction false} TwiceEachTyped(procs: seq<Entries>, a: string, b: string)
    requires TypedTwiceEach(procs, a, b) && !IsBlankText(a) && !IsBlankText(b)
    ensures MissingTypeErrors(procs) == []
  {
    forall i | 0 <= i < |procs|
      ensures !HasBlankType(procs[i])
    {
    }
  }

  lemma TwiceEachDuplicates(a: string, b: string)
    requires a != b
    ensures DuplicateTypes([a, a, b, b]) == [a, b]
  {
    var s := [a, a, b, b];
    assert [b, b][1..] == [b] && [a, b, b][1..] == [b, b] && s[1..] == [a, b, b];
    assert Without([b], b) == [];
    assert Without([b, b], b) == [];
    assert Without([b], a) == [b];
    assert Without([b, b], a) == [b, b];
    assert Without([a, b, b], a) == [b, b];
    assert Distinct([b, b]) == [b];
    assert Distinct(s) == [a, b];
    assert Occurrences([b], a) == 0 && Occurrences([b], b) == 1;
    assert Occurrences([b, b], a) == 0 && Occurrences([b, b], b) == 2;
    assert Occurrences([a, b, b], a) == 1 && Occurrences([a, b, b], b) == 2;
    assert Occurrences(s, a) == 2 && Occurrences(s, b) == 2;
    assert KeepRepeated([b], s) == [b];
  }

  lemma TwiceEachErrors(procs: seq<Entries>, a: string, b: string)
    requires DeclaredTypes(procs) == [a, a, b, b] && a != b
    requires ProcessAttributeErrors(procs) == [] && MissingTypeErrors(procs) == []
    ensures ProcessListErrors(procs) == [a + DUPLICATE_PROCESS, b + DUPLICATE_PROCESS]
  {
    TwiceEachDuplicates(a, b);
    PairErrors(a, b);
    OnlyMiddle(MissingTypeErrors(procs), DuplicateTypeErrors(DuplicateTypes(DeclaredTypes(procs))),
      ProcessAttributeErrors(procs));
  }

  lemma PairErrors(a: string, b: string)
    ensures DuplicateTypeErrors([a, b]) == [a + DUPLICATE_PROCESS, b + DUPLICATE_PROCESS]
  {
  }

  lemma OnlyMiddle(first: seq<string>, middle: seq<string>, last: seq<string>)
    requires first == [] && last == []
    ensures first + middle + last == middle
  {
  }

  lemma RepeatedProcessTypes(procs: seq<Entries>, a: string, b: string)
    requires TypedTwiceEach(procs, a, b) && ProcessAttributeErrors(procs) == []
    requires a != b && !IsBlankText(a) && !IsBlankText(b)
    ensures ProcessListErrors(procs) == [a + DUPLICATE_PROCESS, b + DUPLICATE_PROCESS]
  {
    TwiceEachDeclared(procs, a, b);
    TwiceEachTyped(procs, a, b);
    TwiceEachErrors(procs, a, b);
  }

  /** Only the routes the URL parser rejects are reported. */
  lemma MalformedRoutes(wellFormedUrl: string -> bool)
    requires !wellFormedUrl("blah") && !wellFormedUrl("anotherblah") && wellFormedUrl("http://example.com")
    ensures RouteUrlErrors([[("route", Str("blah"))], [("route", Str("anotherblah"))], [("route", Str("http://example.com"))]], wellFormedUrl)
            == [MalformedRouteMessage("blah"), MalformedRouteMessage("anotherblah")]
  {
    var routes := [[("route", Str("blah"))], [("route", Str("anotherblah"))], [("route", Str("http://example.com"))]];
    assert RouteText(routes[0]) == "blah";
    assert RouteText(routes[1]) == "anotherblah";
    assert RouteText(routes[2]) == "http://example.com";
    assert routes[1..][1..][1..] == [];
  }

  /** Only route attributes (routes, no-route, random-route) are written. */
  predicate OnlyRouteAttributes(h: Entries) {
    && !Requested(h, "instances") && !Requested(h, "memory") && !Requested(h, "disk_quota")
    && !Requested(h, "buildpack") && !Requested(h, "stack") && !Requested(h, "env")
    && !Requested(h, "services") && !Requested(h, "processes")
  }

  lemma RouteAttributeErrors(h: Entries, wellFormedUrl: string -> bool)
    requires OnlyRouteAttributes(h)
    ensures Errors(h, wellFormedUrl) == RouteErrors(h, wellFormedUrl) + NoRouteErrors(h) + RandomRouteErrors(h)
  {
    UnwrittenNonRouteAttributes(h);
    OnlyRouteParts(ScaleErrors(h), BuildpackErrors(h), StackErrors(h), EnvErrors(h),
      RouteErrors(h, wellFormedUrl), NoRouteErrors(h), RandomRouteErrors(h), ServicesErrors(h), ProcessesErrors(h));
  }

  lemma OnlyRouteParts(scale: seq<string>, buildpack: seq<string>, stack: seq<string>, env: seq<string>,
                       routes: seq<string>, noRoute: seq<string>, randomRoute: seq<string>,
                       services: seq<string>, processes: seq<string>)
    requires scale == [] && buildpack == [] && stack == [] && env == [] && services == [] && processes == []
    ensures scale + buildpack + stack + env + routes + noRoute + randomRoute + services + processes
            == routes + noRoute + randomRoute
  {
  }

  lemma UnwrittenNonRouteAttributes(h: Entries)
    requires OnlyRouteAttributes(h)
    ensures ScaleErrors(h) == [] && BuildpackErrors(h) == [] && StackErrors(h) == [] && EnvErrors(h) == []
    ensures ServicesErrors(h) == [] && ProcessesErrors(h) == []
  {
    assert Attribute(h, "instances").None? && Attribute(h, "memory").None? && Attribute(h, "disk_quota").None?;
    assert Attribute(h, "buildpack").None? && Attribute(h, "stack").None? && Attribute(h, "env").None?;
    assert Attribute(h, "services").None? && Attribute(h, "processes").None?;
  }

  /** A list of route hashes whose routes the URL parser accepts gives no route error. */
  lemma AcceptedRoutes(h: Entries, wellFormedUrl: string -> bool, texts: seq<string>)
    requires Attribute(h, "routes") == Some(List(seq(|texts|, i requires 0 <= i < |texts| => Hash([("route", Str(texts[i]))]))))
    requires forall i :: 0 <= i < |texts| ==> wellFormedUrl(texts[i])
    ensures RouteErrors(h, wellFormedUrl) == []
  {
    var items := Attribute(h, "routes").value.items;
    var routes := HashItems(Attribute(h, "routes").value);
    assert routes.Some?;
    forall i | 0 <= i < |routes.value|
      ensures wellFormedUrl(RouteText(routes.value[i]))
    {
      assert routes.value[i] == [("route", Str(texts[i]))];
    }
  }

  const EXAMPLE_ROUTE := List([Hash([("route", Str("http://example.com"))])])

  lemma OneAcceptedRoute(h: Entries, wellFormedUrl: string -> bool)
    requires Attribute(h, "routes") == Some(EXAMPLE_ROUTE) && wellFormedUrl("http://example.com")
    ensures RouteErrors(h, wellFormedUrl) == []
  {
    var texts := ["http://example.com"];
    assert EXAMPLE_ROUTE == List(seq(|texts|, i requires 0 <= i < |texts| => Hash([("route", Str(texts[i]))])));
    AcceptedRoutes(h, wellFormedUrl, texts);
  }

  const TWO_ROUTES: Entries :=
    [("routes", List([Hash([("route", Str("existing.example.com"))]), Hash([("route", Str("new.example.com"))])]))]

  /** Two routes the URL parser accepts make a valid message. */
  lemma ValidRoutes(h: Entries, wellFormedUrl: string -> bool)
    requires OnlyRouteAttributes(h) && Attribute(h, "no_route").None? && Attribute(h, "random_route").None?
    requires Attribute(h, "routes") == Some(TWO_ROUTES[0].1)
    requires wellFormedUrl("existing.example.com") && wellFormedUrl("new.example.com")
    ensures IsValid(h, wellFormedUrl)
  {
    var texts := ["existing.example.com", "new.example.com"];
    assert TWO_ROUTES[0].1 == List(seq(|texts|, i requires 0 <= i < |texts| => Hash([("route", Str(texts[i]))])));
    AcceptedRoutes(h, wellFormedUrl, texts);
    RouteAttributeErrors(h, wellFormedUrl);
  }

  lemma ValidRoutesWritten()
    ensures OnlyRouteAttributes(TWO_ROUTES) && Attribute(TWO_ROUTES, "no_route").None? && Attribute(TWO_ROUTES, "random_route").None?
    ensures Attribute(TWO_ROUTES, "routes") == Some(TWO_ROUTES[0].1)
  {
  }

  /** A list of plain strings is not a list of route hashes. */
  lemma RoutesNotHashes(wellFormedUrl: string -> bool)
    ensures Errors([("routes", List([Str("blah")]))], wellFormedUrl) == [ROUTES_NOT_HASHES]
  {
    RouteAttributeErrors([("routes", List([Str("blah")]))], wellFormedUrl);
  }

  lemma NoRouteAlone(wellFormedUrl: string -> bool)
    ensures IsValid([("no_route", Bool(true))], wellFormedUrl)
  {
  }

  lemma NoRouteNotBoolean(wellFormedUrl: string -> bool)
    ensures Errors([("no_route", Str("I am a free s0mjgnbha"))], wellFormedUrl) == [NO_ROUTE_NOT_BOOLEAN]
  {
  }

  /** no-route: true beside routes is refused, even when every route is well formed. */
  lemma NoRouteWithRoutes(h: Entries, wellFormedUrl: string -> bool)
    requires OnlyRouteAttributes(h) && Attribute(h, "random_route").None?
    requires Attribute(h, "no_route") == Some(Bool(true)) && Attribute(h, "routes") == Some(EXAMPLE_ROUTE)
    requires wellFormedUrl("http://example.com")
    ensures Errors(h, wellFormedUrl) == [NO_ROUTE_WITH_ROUTES]
  {
    OneAcceptedRoute(h, wellFormedUrl);
    RouteAttributeErrors(h, wellFormedUrl);
  }

  const NO_ROUTE_WITH_ROUTE: Entries := [("no_route", Bool(true)), ("routes", EXAMPLE_ROUTE)]

  lemma NoRouteWithRoutesWritten()
    ensures OnlyRouteAttributes(NO_ROUTE_WITH_ROUTE) && Attribute(NO_ROUTE_WITH_ROUTE, "random_route").None?
    ensures Attribute(NO_ROUTE_WITH_ROUTE, "no_route") == Some(Bool(true))
    ensures Attribute(NO_ROUTE_WITH_ROUTE, "routes") == Some(EXAMPLE_ROUTE)
  {
    LookupLast(NO_ROUTE_WITH_ROUTE, 0);
  }

  lemma RandomRouteAlone(wellFormedUrl: string -> bool)
    ensures IsValid([("random_route", Bool(true))], wellFormedUrl)
  {
  }

  lemma RandomRouteNotBoolean(wellFormedUrl: string -> bool)
    ensures Errors([("random_route", Str("I am a free s0mjgnbha"))], wellFormedUrl) == [RANDOM_ROUTE_NOT_BOOLEAN]
  {
  }

  /** random-route: true may be combined with routes. */
  lemma RandomRouteWithRoutes(h: Entries, wellFormedUrl: string -> bool)
    requires OnlyRouteAttributes(h) && Attribute(h, "no_route").None?
    requires Attribute(h, "random_route") == Some(Bool(true)) && Attribute(h, "routes") == Some(EXAMPLE_ROUTE)
    requires wellFormedUrl("http://example.com")
    ensures IsValid(h, wellFormedUrl)
  {
    OneAcceptedRoute(h, wellFormedUrl);
    RouteAttributeErrors(h, wellFormedUrl);
  }

  const RANDOM_ROUTE_WITH_ROUTE: Entries := [("random_route", Bool(true)), ("routes", EXAMPLE_ROUTE)]

  lemma RandomRouteWithRoutesWritten()
    ensures OnlyRouteAttributes(RANDOM_ROUTE_WITH_ROUTE) && Attribute(RANDOM_ROUTE_WITH_ROUTE, "no_route").None?
    ensures Attribute(RANDOM_ROUTE_WITH_ROUTE, "random_route") == Some(Bool(true))
    ensures Attribute(RANDOM_ROUTE_WITH_ROUTE, "routes") == Some(EXAMPLE_ROUTE)
  {
    LookupLast(RANDOM_ROUTE_WITH_ROUTE, 0);
  }

  lemma ServicesNotList(wellFormedUrl: string -> bool)
    ensures Errors([("services", Str("string"))], wellFormedUrl) == [SERVICES_NOT_LIST]
  {
  }

  lemma ProcessesNotArray(wellFormedUrl: string -> bool)
    ensures Errors([("processes", Str("string"))], wellFormedUrl) == [PROCESSES_NOT_ARRAY]
  {
  }

  /** Only the three scale attributes are written, with these values. */
  predicate ScaleOnly(h: Entries, instances: Value, memory: string, disk: string) {
    && OnlyScaleAttributes(h)
    && Attribute(h, "instances") == Some(instances)
    && Attribute(h, "memory") == Some(Str(memory))
    && Attribute(h, "disk_quota") == Some(Str(disk))
  }

  lemma ScaleOnlyErrors(h: Entries, wellFormedUrl: string -> bool, instances: Value, memory: string, disk: string)
    requires ScaleOnly(h, instances, memory, disk)
    ensures Errors(h, wellFormedUrl)
            == InstancesErrors(Some(instances)) + ByteFieldErrors("Memory", Some(Str(memory)))
               + ByteFieldErrors("Disk quota", Some(Str(disk)))
  {
    ScaleAttributeErrors(h, wellFormedUrl);
  }

  lemma ScaleOnlyMessages(h: Entries, instances: Value, memory: string, disk: string)
    requires ScaleOnly(h, instances, memory, disk)
    ensures ScaleMessages(h)
            == [ScaleMessage(WEB, Some(instances), MegabytesOf(Some(Str(memory))), MegabytesOf(Some(Str(disk))))]
  {
    assert Processes(h) == [];
    assert RequestsAppScale(h);
  }

  lemma ZeroMegabytesError(field: string, v: Option<Value>)
    requires MegabytesOf(v) == Some(0)
    ensures ByteFieldErrors(field, v) == [field + NOT_GREATER_THAN_ZERO_MB]
  {
  }

  lemma InstancesEight()
    ensures InstancesErrors(Some(Int(8))) == [] && InstancesErrors(Some(Int(5))) == []
  {
  }

  /** An amount that floors to 0MB ("1048575B", one byte short, by Bytes1048575) is not greater than 0MB, for memory and disk alike. */
  lemma OneByteShort(h: Entries, wellFormedUrl: string -> bool, text: string)
    requires ScaleOnly(h, Int(8), text, text)
    requires MegabytesOf(Some(Str(text))) == Some(0)
    ensures Errors(h, wellFormedUrl) == ["Memory" + NOT_GREATER_THAN_ZERO_MB, "Disk quota" + NOT_GREATER_THAN_ZERO_MB]
  {
    ScaleOnlyErrors(h, wellFormedUrl, Int(8), text, text);
    ZeroMegabytesError("Memory", Some(Str(text)));
    ZeroMegabytesError("Disk quota", Some(Str(text)));
    InstancesEight();
    TwoAmountMessages(InstancesErrors(Some(Int(8))), ByteFieldErrors("Memory", Some(Str(text))),
      ByteFieldErrors("Disk quota", Some(Str(text))));
  }

  lemma TwoAmountMessages(instances: seq<string>, memory: seq<string>, disk: seq<string>)
    requires instances == [] && memory == ["Memory" + NOT_GREATER_THAN_ZERO_MB]
    requires disk == ["Disk quota" + NOT_GREATER_THAN_ZERO_MB]
    ensures instances + memory + disk == ["Memory" + NOT_GREATER_THAN_ZERO_MB, "Disk quota" + NOT_GREATER_THAN_ZERO_MB]
  {
  }

  /** Three entries: disk_quota, memory and instances. */
  lemma ScaleEntries(h: Entries, instances: Value, memory: string, disk: string)
    requires h == [("disk_quota", Str(disk)), ("memory", Str(memory)), ("instances", instances)]
    requires instances != Null
    ensures ScaleOnly(h, instances, memory, disk)
  {
    ScaleEntriesUnrequested(h);
    assert Lookup(h[2..], "instances") == Some(instances);
    assert Lookup(h[1..], "instances") == Some(instances) by { assert h[1..][1..] == h[2..]; }
    assert Lookup(h[1..], "memory") == Some(Str(memory));
  }

  lemma ScaleEntriesUnrequested(h: Entries)
    requires |h| == 3 && h[0].0 == "disk_quota" && h[1].0 == "memory" && h[2].0 == "instances"
    ensures OnlyScaleAttributes(h)
  {
    assert forall i :: 0 <= i < |h| ==> h[i].0 in {"disk_quota", "memory", "instances"};
  }

  const ONE_BYTE_SHORT: Entries := [("disk_quota", Str("1048575B")), ("memory", Str("1048575B")), ("instances", Int(8))]

  lemma OneByteShortWritten()
    ensures ScaleOnly(ONE_BYTE_SHORT, Int(8), "1048575B", "1048575B")
  {
    ScaleEntries(ONE_BYTE_SHORT, Int(8), "1048575B", "1048575B");
  }

  // ----------------------------------------------------------- translation

  /** App-level attributes alone describe the web process. */
  lemma AppLevelScale(h: Entries, wellFormedUrl: string -> bool)
    requires ScaleOnly(h, Int(5), "200GB", "1000GB")
    ensures IsValid(h, wellFormedUrl)
    ensures ScaleMessages(h) == [ScaleMessage(WEB, Some(Int(5)), Some(204800), Some(1024000))]
  {
    ScaleOnlyErrors(h, wellFormedUrl, Int(5), "200GB", "1000GB");
    ScaleOnlyMessages(h, Int(5), "200GB", "1000GB");
    Gigabytes200();
    Gigabytes1000();
    InstancesEight();
  }

  const APP_LEVEL_SCALE: Entries := [("disk_quota", Str("1000GB")), ("memory", Str("200GB")), ("instances", Int(5))]

  lemma AppLevelScaleWritten()
    ensures ScaleOnly(APP_LEVEL_SCALE, Int(5), "200GB", "1000GB")
  {
    ScaleEntries(APP_LEVEL_SCALE, Int(5), "200GB", "1000GB");
  }

  const WEB_PROCESS: Entries := [("type", Str("web")), ("disk_quota", Str("1000GB")), ("memory", Str("200GB")), ("instances", Int(5))]
  const WORKER_PROCESS: Entries := [("type", Str("worker")), ("disk_quota", Str("1000GB")), ("memory", Str("200GB")), ("instances", Int(5))]

  function WithProcess(process: Entries): Entries {
    [("memory", Str("5GB")), ("instances", Int(1)), ("disk_quota", Str("30GB")), ("processes", List([Hash(process)]))]
  }

  lemma ListedProcessScale(process: Entries)
    ensures Processes(WithProcess(process)) == [process]
    ensures RequestsAppScale(WithProcess(process))
  {
    var h := WithProcess(process);
    LookupLast(h, 0);
    LookupLast(h, 3);
    assert Attribute(h, "processes") == Some(List([Hash(process)]));
    var items := HashItems(List([Hash(process)]));
    assert items.Some? && |items.value| == 1 && items.value[0] == process;
    assert items.value == [process];
  }

  /** The scale attributes of WEB_PROCESS and WORKER_PROCESS. */
  predicate LargeProcess(p: Entries) {
    && Attribute(p, "instances") == Some(Int(5))
    && Attribute(p, "memory") == Some(Str("200GB"))
    && Attribute(p, "disk_quota") == Some(Str("1000GB"))
  }

  /** The app-level scale attributes of WithProcess. */
  predicate SmallApp(h: Entries) {
    && Attribute(h, "instances") == Some(Int(1))
    && Attribute(h, "memory") == Some(Str("5GB"))
    && Attribute(h, "disk_quota") == Some(Str("30GB"))
  }

  lemma LargeProcessScale(t: string, p: Entries)
    requires LargeProcess(p)
    ensures ScaleOf(t, p) == ScaleMessage(t, Some(Int(5)), Some(204800), Some(1024000))
  {
    Gigabytes200();
    Gigabytes1000();
  }

  lemma ListedWeb()
    ensures LargeProcess(WEB_PROCESS) && TypeText(WEB_PROCESS) == WEB
  {
    LookupLast(WEB_PROCESS, 0);
    LookupLast(WEB_PROCESS, 1);
    LookupLast(WEB_PROCESS, 2);
  }

  lemma ListedWorker()
    ensures LargeProcess(WORKER_PROCESS) && TypeText(WORKER_PROCESS) == "worker"
  {
    LookupLast(WORKER_PROCESS, 0);
    LookupLast(WORKER_PROCESS, 1);
    LookupLast(WORKER_PROCESS, 2);
  }

  lemma {:induction false} SmallAppLevel(process: Entries)
    ensures SmallApp(WithProcess(process))
  {
    var h := WithProcess(process);
    LookupLast(h, 0);
    LookupLast(h, 1);
    LookupLast(h, 2);
  }

  /** A listed web process wins over the app-level attributes (WEB_PROCESS is one, by ListedWeb). */
  lemma ListedWebWins(process: Entries)
    requires LargeProcess(process) && TypeText(process) == WEB
    ensures ScaleMessages(WithProcess(process)) == [ScaleMessage(WEB, Some(Int(5)), Some(204800), Some(1024000))]
  {
    ListedProcessScale(process);
    assert TypeText([process][0]) == WEB;
    LargeProcessScale(WEB, process);
    assert ProcessScales([process]) == [ScaleOf(WEB, process)];
  }

  /** Without a listed web process the app-level attributes come first, as web (WORKER_PROCESS is such a process, by ListedWorker). */
  lemma AppLevelThenWorker(process: Entries)
    requires LargeProcess(process) && TypeText(process) == "worker"
    ensures ScaleMessages(WithProcess(process))
            == [ScaleMessage(WEB, Some(Int(1)), Some(5120), Some(30720)),
                ScaleMessage("worker", Some(Int(5)), Some(204800), Some(1024000))]
  {
    var h := WithProcess(process);
    ListedProcessScale(process);
    assert !HasWebProcess([process]);
    LargeProcessScale("worker", process);
    assert ProcessScales([process]) == [ScaleOf("worker", process)];
    SmallAppLevel(process);
    SmallAppScale(h);
    AppLevelScaleFirst(h, [process]);
  }

  /** Scale is requested at the app level and no web process is listed: the app-level message comes first. */
  lemma AppLevelScaleFirst(h: Entries, procs: seq<Entries>)
    requires Processes(h) == procs && RequestsAppScale(h) && !HasWebProcess(procs)
    ensures ScaleMessages(h) == [ScaleOf(WEB, h)] + ProcessScales(procs)
  {
  }

  lemma SmallAppScale(h: Entries)
    requires SmallApp(h)
    ensures ScaleOf(WEB, h) == ScaleMessage(WEB, Some(Int(1)), Some(5120), Some(30720))
  {
    Gigabytes5();
    Gigabytes30();
  }

  /** Health-check and command defaults. */
  lemma HealthCheckNone()
    ensures UpdateMessages([("health_check_type", Str("none"))])
            == [UpdateMessage(WEB, None, Some(Str("process")), None, None)]
  {
    AppLevelUpdateOnly([("health_check_type", Str("none"))]);
  }

  lemma HealthCheckHttp()
    ensures UpdateMessages([("health_check_type", Str("http"))])
            == [UpdateMessage(WEB, None, Some(Str("http")), Some(Str("/")), None)]
  {
    AppLevelUpdateOnly([("health_check_type", Str("http"))]);
  }

  lemma HealthCheckPort()
    ensures UpdateMessages([("health_check_type", Str("port"))])
            == [UpdateMessage(WEB, None, Some(Str("port")), None, None)]
  {
    AppLevelUpdateOnly([("health_check_type", Str("port"))]);
  }

  /** A manifest that lists no processes but asks for an update gives exactly the app-level web update. */
  lemma AppLevelUpdateOnly(h: Entries)
    requires RequestsAppUpdate(h) && Attribute(h, "processes").None?
    ensures UpdateMessages(h) == [UpdateOf(WEB, h)]
  {
    assert Processes(h) == [];
  }

  lemma TimeoutOnly()
    ensures UpdateMessages([("timeout", Int(10))]) == [UpdateMessage(WEB, None, None, None, Some(Int(10)))]
  {
  }

  lemma NullCommand()
    ensures UpdateMessages([("command", Null)]) == [UpdateMessage(WEB, Some(Str("null")), None, None, None)]
  {
  }

  /** A "default" or nil buildpack asks for no buildpacks; a stack alone leaves the buildpacks unrequested. */
  lemma LifecycleDefaults()
    ensures AppUpdateLifecycle([("buildpack", Str("default"))]) == Some(LifecycleData(Some([]), None))
    ensures AppUpdateLifecycle([("buildpack", Null)]) == Some(LifecycleData(Some([]), None))
    ensures AppUpdateLifecycle([("stack", Str("cflinuxfs2"))]) == Some(LifecycleData(None, Some(Str("cflinuxfs2"))))
  {
  }

  /** Variable values are passed on as text. */
  lemma VariablesAsText(renderOther: Value -> string)
    ensures EnvironmentVariables([("env", Hash([("foo", Str("bar")), ("qux", Bool(false))]))], renderOther)
            == Some([("foo", "bar"), ("qux", "false")])
  {
    var env := [("foo", Str("bar")), ("qux", Bool(false))];
    assert Attribute([("env", Hash(env))], "env") == Some(Hash(env));
    var vars := StringifyValues(env, renderOther);
    assert vars[0] == ("foo", "bar") && vars[1] == ("qux", "false");
    assert vars == [("foo", "bar"), ("qux", "false")];
    assert EnvironmentVariables([("env", Hash(env))], renderOther) == Some(vars);
  }
}
