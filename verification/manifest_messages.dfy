/**
 * The translation of a manifest message into the messages the app, process,
 * environment and route updates consume.
 */
module ManifestMessages {
  import opened Wrappers
  import opened Text
  import opened ManifestValue
  import opened ManifestValidation

  const WEB := "web"

  /** create_from_yml: the parsed YAML with its attribute keys underscored. */
  function CreateFromYml(yaml: Entries): (h: Entries)
    ensures |h| == |yaml|
    ensures forall i :: 0 <= i < |yaml| ==> h[i].0 == Underscore(yaml[i].0)
    ensures forall i :: 0 <= i < |yaml| && yaml[i].0 != "processes" ==> h[i].1 == yaml[i].1
    ensures forall i :: 0 <= i < |yaml| && yaml[i].0 == "processes" && yaml[i].1.List? ==>
              h[i].1.List? && |h[i].1.items| == |yaml[i].1.items|
              && forall k :: 0 <= k < |yaml[i].1.items| && yaml[i].1.items[k].Hash? ==>
                   h[i].1.items[k] == Hash(UnderscoreEntries(yaml[i].1.items[k].entries))
  {
    UnderscoreKeys(yaml)
  }

  /** The process configurations listed under processes, none when there is no such list. */
  function Processes(h: Entries): (procs: seq<Entries>)
    ensures procs != [] ==> Attribute(h, "processes").Some? && HashItems(Attribute(h, "processes").value) == Some(procs)
    ensures Attribute(h, "processes").Some? && HashItems(Attribute(h, "processes").value).Some? ==>
              procs == HashItems(Attribute(h, "processes").value).value
  {
    match Attribute(h, "processes")
    case Some(v) => (match HashItems(v) case Some(procs) => procs case None => [])
    case None => []
  }

  /** A process's type as text ("" when it is not a string). */
  function TypeText(p: Entries): string {
    match Attribute(p, "type")
    case Some(Str(s)) => s
    case _ => ""
  }

  function ProcessTypes(procs: seq<Entries>): (types: seq<string>)
    ensures |types| == |procs|
    ensures forall i :: 0 <= i < |procs| ==> types[i] == TypeText(procs[i])
  {
    seq(|procs|, i requires 0 <= i < |procs| => TypeText(procs[i]))
  }

  predicate HasWebProcess(procs: seq<Entries>) {
    exists i :: 0 <= i < |procs| && TypeText(procs[i]) == WEB
  }

  // ------------------------------------------------------------------ scale

  datatype ScaleMessage = ScaleMessage(
    processType: string,
    instances: Option<Value>,
    memory: Option<int>,
    diskQuota: Option<int>)

  /** The scale attributes of h, amounts converted to megabytes, for a process of the given type. */
  function ScaleOf(processType: string, h: Entries): (m: ScaleMessage)
    ensures m.processType == processType
    ensures m.instances == Attribute(h, "instances")
    ensures m.memory == MegabytesOf(Attribute(h, "memory"))
    ensures m.diskQuota == MegabytesOf(Attribute(h, "disk_quota"))
  {
    ScaleMessage(processType, Attribute(h, "instances"),
      MegabytesOf(Attribute(h, "memory")), MegabytesOf(Attribute(h, "disk_quota")))
  }

  predicate RequestsAppScale(h: Entries) {
    Requested(h, "instances") || Requested(h, "memory") || Requested(h, "disk_quota")
  }

  /** One scale message per listed process, typed by the process's own type. */
  function ProcessScales(procs: seq<Entries>): (ms: seq<ScaleMessage>)
    ensures |ms| == |procs|
    ensures forall i :: 0 <= i < |procs| ==>
              ms[i].processType == TypeText(procs[i]) && ms[i].instances == Attribute(procs[i], "instances")
              && ms[i].memory == MegabytesOf(Attribute(procs[i], "memory"))
              && ms[i].diskQuota == MegabytesOf(Attribute(procs[i], "disk_quota"))
  {
    seq(|procs|, i requires 0 <= i < |procs| => ScaleOf(TypeText(procs[i]), procs[i]))
  }

  /**
   * manifest_process_scale_messages: app-level scale attributes describe the
   * web process unless a web process is listed, then one message per listed
   * process.
   */
  function ScaleMessages(h: Entries): (ms: seq<ScaleMessage>)
    ensures |ms| == |Processes(h)| + (if RequestsAppScale(h) && !HasWebProcess(Processes(h)) then 1 else 0)
    ensures RequestsAppScale(h) && !HasWebProcess(Processes(h)) ==> ms == [ScaleOf(WEB, h)] + ProcessScales(Processes(h))
    ensures !(RequestsAppScale(h) && !HasWebProcess(Processes(h))) ==> ms == ProcessScales(Processes(h))
  {
    var procs := Processes(h);
    (if RequestsAppScale(h) && !HasWebProcess(procs) then [ScaleOf(WEB, h)] else [])
    + ProcessScales(procs)
  }

  function ScaleTypes(ms: seq<ScaleMessage>): (types: seq<string>)
    ensures |types| == |ms|
    ensures forall i :: 0 <= i < |ms| ==> types[i] == ms[i].processType
  {
    seq(|ms|, i requires 0 <= i < |ms| => ms[i].processType)
  }

  // ----------------------------------------------------------------- update

  datatype UpdateMessage = UpdateMessage(
    processType: string,
    command: Option<Value>,
    healthCheckType: Option<Value>,
    healthCheckEndpoint: Option<Value>,
    timeout: Option<Value>)

  /** A command written without a value (nil) becomes the literal command "null". */
  function Command(written: Option<Value>): (c: Option<Value>)
    ensures c.Some? <==> written.Some?
    ensures c != Some(Null)
    ensures written != Some(Null) ==> c == written
    ensures written == Some(Null) ==> c == Some(Str("null"))
  {
    match written
    case Some(Null) => Some(Str("null"))
    case _ => written
  }

  /** The deprecated health-check type none is process. */
  function HealthCheckType(written: Option<Value>): (t: Option<Value>)
    ensures t.Some? <==> written.Some?
    ensures t != Some(Str("none"))
    ensures written != Some(Str("none")) ==> t == written
    ensures written == Some(Str("none")) ==> t == Some(Str("process"))
  {
    if written == Some(Str("none")) then Some(Str("process")) else written
  }

  /** An http health check without an endpoint checks "/"; no other type gets a default. */
  function HealthCheckEndpoint(healthCheckType: Option<Value>, written: Option<Value>): (e: Option<Value>)
    ensures written.Some? ==> e == written
    ensures e.None? <==> written.None? && healthCheckType != Some(Str("http"))
    ensures written.None? && healthCheckType == Some(Str("http")) ==> e == Some(Str("/"))
  {
    if written.None? && healthCheckType == Some(Str("http")) then Some(Str("/")) else written
  }

  /** The update attributes of h for a process of the given type, with the defaults and renamings applied. */
  function UpdateOf(processType: string, h: Entries): (m: UpdateMessage)
    ensures m.processType == processType
    ensures m.command == Command(Lookup(h, "command"))
    ensures m.healthCheckType == HealthCheckType(Attribute(h, "health_check_type"))
    ensures m.healthCheckEndpoint == HealthCheckEndpoint(m.healthCheckType, Attribute(h, "health_check_http_endpoint"))
    ensures m.timeout == Attribute(h, "timeout")
  {
    var healthCheckType := HealthCheckType(Attribute(h, "health_check_type"));
    UpdateMessage(processType, Command(Lookup(h, "command")), healthCheckType,
      HealthCheckEndpoint(healthCheckType, Attribute(h, "health_check_http_endpoint")),
      Attribute(h, "timeout"))
  }

  predicate RequestsAppUpdate(h: Entries) {
    Requested(h, "command") || Requested(h, "health_check_type")
    || Requested(h, "health_check_http_endpoint") || Requested(h, "timeout")
  }

  /** One update message per listed process, typed by the process's own type. */
  function ProcessUpdates(procs: seq<Entries>): (ms: seq<UpdateMessage>)
    ensures |ms| == |procs|
    ensures forall i :: 0 <= i < |procs| ==>
              ms[i].processType == TypeText(procs[i]) && ms[i].command == Command(Lookup(procs[i], "command"))
              && ms[i].healthCheckType == HealthCheckType(Attribute(procs[i], "health_check_type"))
              && ms[i].healthCheckEndpoint
                 == HealthCheckEndpoint(ms[i].healthCheckType, Attribute(procs[i], "health_check_http_endpoint"))
              && ms[i].timeout == Attribute(procs[i], "timeout")
  {
    seq(|procs|, i requires 0 <= i < |procs| => UpdateOf(TypeText(procs[i]), procs[i]))
  }

  /** manifest_process_update_messages: the same precedence as for scaling. */
  function UpdateMessages(h: Entries): (ms: seq<UpdateMessage>)
    ensures |ms| == |Processes(h)| + (if RequestsAppUpdate(h) && !HasWebProcess(Processes(h)) then 1 else 0)
    ensures RequestsAppUpdate(h) && !HasWebProcess(Processes(h)) ==> ms == [UpdateOf(WEB, h)] + ProcessUpdates(Processes(h))
    ensures !(RequestsAppUpdate(h) && !HasWebProcess(Processes(h))) ==> ms == ProcessUpdates(Processes(h))
  {
    var procs := Processes(h);
    (if RequestsAppUpdate(h) && !HasWebProcess(procs) then [UpdateOf(WEB, h)] else [])
    + ProcessUpdates(procs)
  }

  // ------------------------------------------------------------ app update

  datatype LifecycleData = LifecycleData(buildpacks: Option<seq<Value>>, stack: Option<Value>)

  /** The buildpack list: a nil or "default" buildpack means the detected one, written as no buildpacks. */
  function Buildpacks(written: Value): (bs: seq<Value>)
    ensures |bs| <= 1
    ensures bs == [] <==> written == Null || written == Str("default")
    ensures bs != [] ==> bs == [written]
  {
    if written == Null || written == Str("default") then [] else [written]
  }

  /** app_update_message's lifecycle: present when a buildpack or a stack was written, with only those. */
  function AppUpdateLifecycle(h: Entries): (l: Option<LifecycleData>)
    ensures l.Some? <==> Requested(h, "buildpack") || Requested(h, "stack")
    ensures l.Some? ==> (l.value.buildpacks.Some? <==> Requested(h, "buildpack"))
    ensures l.Some? ==> l.value.stack == Lookup(h, "stack")
    ensures l.Some? && Requested(h, "buildpack") ==> l.value.buildpacks == Some(Buildpacks(Lookup(h, "buildpack").value))
  {
    if Requested(h, "buildpack") || Requested(h, "stack") then
      var buildpacks := match Lookup(h, "buildpack") case Some(b) => Some(Buildpacks(b)) case None => None;
      Some(LifecycleData(buildpacks, Lookup(h, "stack")))
    else None
  }

  // ------------------------------------------------- environment variables

  /**
   * A variable's value as text (to_s). Lists, hashes and floats are printed
   * by renderOther, which stands for Ruby's own printing.
   */
  function EnvValueText(v: Value, renderOther: Value -> string): string {
    match v
    case Str(s) => s
    case Bool(b) => if b then "true" else "false"
    case Int(i) => IntToString(i)
    case Null => ""
    case _ => renderOther(v)
  }

  /** app_update_environment_variables_message: every variable, in order, with its value as text. */
  function EnvironmentVariables(h: Entries, renderOther: Value -> string): (vars: Option<seq<(string, string)>>)
    ensures vars.Some? <==> Attribute(h, "env").Some? && Attribute(h, "env").value.Hash?
    ensures vars.Some? ==> |vars.value| == |Attribute(h, "env").value.entries|
    ensures vars.Some? ==> forall i :: 0 <= i < |vars.value| ==> vars.value[i].0 == Attribute(h, "env").value.entries[i].0
    ensures vars.Some? ==> forall i :: 0 <= i < |vars.value| ==>
              vars.value[i].1 == EnvValueText(Attribute(h, "env").value.entries[i].1, renderOther)
  {
    match Attribute(h, "env")
    case Some(Hash(env)) => Some(StringifyValues(env, renderOther))
    case _ => None
  }

  function StringifyValues(env: Entries, renderOther: Value -> string): (vars: seq<(string, string)>)
    ensures |vars| == |env|
    ensures forall i :: 0 <= i < |env| ==> vars[i] == (env[i].0, EnvValueText(env[i].1, renderOther))
  {
    if env == [] then []
    else [(env[0].0, EnvValueText(env[0].1, renderOther))] + StringifyValues(env[1..], renderOther)
  }

  // ------------------------------------------------------------------ routes

  /** manifest_routes_update_message: the route texts, present only when routes were written. */
  function RoutesUpdate(h: Entries): (routes: Option<seq<string>>)
    ensures routes.Some? <==> Attribute(h, "routes").Some?
  {
    match Attribute(h, "routes")
    case None => None
    case Some(v) =>
      match HashItems(v)
      case Some(rs) => Some(seq(|rs|, i requires 0 <= i < |rs| => RouteText(rs[i])))
      case None => Some([])
  }

  // ---------------------------------------------------------------- lemmas

  /** An empty manifest asks for no scaling, no process update, no lifecycle, no variables, no routes. */
  lemma EmptyManifest(renderOther: Value -> string)
    ensures ScaleMessages([]) == [] && UpdateMessages([]) == []
    ensures AppUpdateLifecycle([]).None? && EnvironmentVariables([], renderOther).None? && RoutesUpdate([]).None?
  {
  }

  /** When a web process is listed, the app-level attributes have no effect on scaling or updating. */
  lemma WebProcessOverridesAppLevel(h1: Entries, h2: Entries)
    requires Processes(h1) == Processes(h2) && HasWebProcess(Processes(h1))
    ensures ScaleMessages(h1) == ScaleMessages(h2)
    ensures UpdateMessages(h1) == UpdateMessages(h2)
  {
  }

  /** Without a listed web process, app-level attributes become the first message, typed web. */
  lemma AppLevelWebComesFirst(h: Entries)
    requires !HasWebProcess(Processes(h))
    ensures RequestsAppScale(h) ==> ScaleMessages(h)[0] == ScaleOf(WEB, h)
    ensures RequestsAppScale(h) ==> ScaleMessages(h)[1..] == ProcessScales(Processes(h))
    ensures RequestsAppUpdate(h) ==> UpdateMessages(h)[0] == UpdateOf(WEB, h)
    ensures RequestsAppUpdate(h) ==> UpdateMessages(h)[1..] == ProcessUpdates(Processes(h))
  {
  }

  /** The types of the scale messages: web first when the app-level attributes count, then the listed types. */
  lemma {:induction false} ScaleMessageTypes(h: Entries)
    ensures ScaleTypes(ScaleMessages(h))
            == (if RequestsAppScale(h) && !HasWebProcess(Processes(h)) then [WEB] else [])
               + ProcessTypes(Processes(h))
  {
    var procs := Processes(h);
    var appWeb := RequestsAppScale(h) && !HasWebProcess(procs);
    var front := if appWeb then [ScaleOf(WEB, h)] else [];
    assert ScaleMessages(h) == front + ProcessScales(procs);
    ScaleTypesAppend(front, ProcessScales(procs));
    ProcessScaleTypes(procs);
    FrontTypes(front, appWeb);
  }

  lemma FrontTypes(front: seq<ScaleMessage>, appWeb: bool)
    requires if appWeb then |front| == 1 && front[0].processType == WEB else front == []
    ensures ScaleTypes(front) == if appWeb then [WEB] else []
  {
  }

  lemma ScaleTypesAppend(a: seq<ScaleMessage>, b: seq<ScaleMessage>)
    ensures ScaleTypes(a + b) == ScaleTypes(a) + ScaleTypes(b)
  {
  }

  lemma ProcessScaleTypes(procs: seq<Entries>)
    ensures ScaleTypes(ProcessScales(procs)) == ProcessTypes(procs)
  {
  }

  lemma {:induction false} NoWebOccurrence(procs: seq<Entries>)
    requires !HasWebProcess(procs)
    ensures Occurrences(ProcessTypes(procs), WEB) == 0
  {
    OccurrencesPositive(ProcessTypes(procs), WEB);
  }

  /** Unless web is listed twice, at most one scale message is for the web process. */
  lemma AtMostOneWebScale(h: Entries)
    requires Occurrences(ProcessTypes(Processes(h)), WEB) <= 1
    ensures Occurrences(ScaleTypes(ScaleMessages(h)), WEB) <= 1
  {
    var procs := Processes(h);
    ScaleMessageTypes(h);
    if RequestsAppScale(h) && !HasWebProcess(procs) {
      NoWebOccurrence(procs);
      OccurrencesAppend([WEB], ProcessTypes(procs), WEB);
    } else {
      assert ScaleTypes(ScaleMessages(h)) == ProcessTypes(procs);
    }
  }

  /** Non-blank process types are counted alike by validation and by translation. */
  lemma {:induction false} DeclaredTypeOccurrences(procs: seq<Entries>, t: string)
    requires !IsBlankText(t)
    ensures Occurrences(DeclaredTypes(procs), t) == Occurrences(ProcessTypes(procs), t)
  {
    if procs != [] {
      DeclaredTypeOccurrences(procs[1..], t);
      OccurrencesAppend(DeclaredType(procs[0]), DeclaredTypes(procs[1..]), t);
      ProcessTypesCons(procs);
      OccurrencesAppend([TypeText(procs[0])], ProcessTypes(procs[1..]), t);
      DeclaredTypeOccurrence(procs[0], t);
    }
  }

  lemma ProcessTypesCons(procs: seq<Entries>)
    requires procs != []
    ensures ProcessTypes(procs) == [TypeText(procs[0])] + ProcessTypes(procs[1..])
  {
  }

  /** A non-blank type is counted alike in one process's declared and textual type. */
  lemma DeclaredTypeOccurrence(p: Entries, t: string)
    requires !IsBlankText(t)
    ensures Occurrences(DeclaredType(p), t) == Occurrences([TypeText(p)], t)
  {
  }

  /** A valid manifest yields at most one scale message for the web process. */
  lemma ValidManifestScalesWebOnce(h: Entries, wellFormedUrl: string -> bool)
    requires IsValid(h, wellFormedUrl)
    ensures Occurrences(ScaleTypes(ScaleMessages(h)), WEB) <= 1
  {
    var procs := Processes(h);
    assert ProcessesErrors(h) == [];
    if Attribute(h, "processes").Some? && HashItems(Attribute(h, "processes").value).Some? {
      assert ProcessListErrors(procs) == [];
      WebListedOnce(procs);
    }
    AtMostOneWebScale(h);
  }

  /** A process list without errors names the web process at most once. */
  lemma WebListedOnce(procs: seq<Entries>)
    requires ProcessListErrors(procs) == []
    ensures Occurrences(ProcessTypes(procs), WEB) <= 1
  {
    var types := DeclaredTypes(procs);
    assert DuplicateTypeErrors(DuplicateTypes(types)) == [];
    DuplicateTypesExactlyOnce(types, WEB);
    assert !IsBlankText(WEB) by { assert !IsSpace(WEB[0]); }
    DeclaredTypeOccurrences(procs, WEB);
  }

  /** An integer variable's text reads back as the same integer. */
  lemma IntegerVariableRoundTrip(i: int, renderOther: Value -> string)
    ensures ParseIntLiteral(EnvValueText(Int(i), renderOther)) == Some(i)
  {
    IntToStringRoundTrip(i);
  }
}
