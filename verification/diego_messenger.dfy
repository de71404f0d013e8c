/**
 * The Diego dispatch layer: the Messenger chooses, per operation, between the
 * legacy back ends (stager and nsync) and the direct BBS back ends, builds the
 * payload, and issues exactly one client call addressed by the droplet guid
 * (staging) or the process guid (running apps).
 */

/** Entities the dispatcher works with and the payloads its builders produce. */
module DiegoTypes {
  import opened Wrappers

  /** A process (an App) as far as the dispatcher needs it: its guid and its version marker. */
  datatype Process = Process(guid: string, version: string)

  /** Lifecycles::BUILDPACK and Lifecycles::DOCKER. */
  datatype LifecycleType = Buildpack | Docker

  /** Diego::StagingDetails: the package and droplet being staged and, when set, the lifecycle. */
  datatype StagingDetails = StagingDetails(packageGuid: string, dropletGuid: string, lifecycle: Option<LifecycleType>)

  /**
   * The configuration: the two `diego` routing switches and the default
   * health-check timeout.
   */
  datatype Config = Config(temporaryLocalStaging: bool, temporaryLocalApps: bool, defaultHealthCheckTimeout: int)

  /**
   * Staging payloads: Protocol#stage_package_request for the stager,
   * RecipeBuilder#build_staging_task for the BBS. Both builders are pure; a
   * payload is identified by the arguments it was built from.
   */
  datatype StagePayload =
    | StagePackageRequest(config: Config, details: StagingDetails)
    | StagingTask(config: Config, details: StagingDetails)

  /** Protocol#desire_app_request (nsync wire shape) and Protocol#desire_app_message (BBS recipe input). */
  datatype DesirePayload =
    | DesireAppRequest(process: Process, timeout: int)
    | DesireAppMessage(process: Process, timeout: int)

  /** Diego::AppRecipeBuilder.new(config:, process:, app_request:). */
  datatype AppRecipeBuilder = AppRecipeBuilder(config: Config, process: Process, appRequest: DesirePayload)

  /** The desired LRP a builder produces (AppRecipeBuilder#build_app_lrp). */
  datatype DesiredLrp = BuildAppLrp(builder: AppRecipeBuilder)

  /**
   * ProcessGuid.from_process: the scheduler-facing key of a process, made of
   * its guid and its version marker.
   */
  function ProcessGuid(p: Process): (key: string)
    ensures |key| == |p.guid| + 1 + |p.version|
    ensures key[..|p.guid|] == p.guid && key[|p.guid|] == '-' && key[|p.guid| + 1..] == p.version
  {
    p.guid + "-" + p.version
  }

  /** Processes whose guids have the same length (as fixed-width guids do) share a key only when they are equal. */
  lemma {:induction false} ProcessGuidInjective(p: Process, q: Process)
    requires |p.guid| == |q.guid|
    requires ProcessGuid(p) == ProcessGuid(q)
    ensures p == q
  {
    var key := ProcessGuid(p);
    assert p.guid == key[..|p.guid|] == q.guid;
    assert p.version == key[|p.guid| + 1..] == q.version;
  }
}

/** The calls the dispatcher can issue and the pure routing policy that picks them. */
module DiegoRouting {
  import opened Wrappers
  import opened DiegoTypes

  /** The four injected clients. */
  datatype ClientName = Stager | Nsync | BbsStager | BbsApps

  /** One call on one client, with its arguments. */
  datatype Call =
    | StagerStage(stagingGuid: string, stageMessage: StagePayload)
    | StagerStopStaging(stagingGuid: string)
    | NsyncDesireApp(processGuid: string, desireMessage: DesirePayload)
    | NsyncStopIndex(processGuid: string, index: int)
    | NsyncStopApp(processGuid: string)
    | BbsStage(stagingGuid: string, stageMessage: StagePayload)
    | BbsDesireApp(processGuid: string, lrp: DesiredLrp)
    | BbsUpdateApp(processGuid: string, lrp: DesiredLrp)
    | BbsStopApp(processGuid: string)

  /** The client a call is made on. */
  function Recipient(c: Call): ClientName
  {
    match c
    case StagerStage(_, _) => Stager
    case StagerStopStaging(_) => Stager
    case NsyncDesireApp(_, _) => Nsync
    case NsyncStopIndex(_, _) => Nsync
    case NsyncStopApp(_) => Nsync
    case BbsStage(_, _) => BbsStager
    case BbsDesireApp(_, _) => BbsApps
    case BbsUpdateApp(_, _) => BbsApps
    case BbsStopApp(_) => BbsApps
  }

  /** Staging goes to the BBS only when local staging is switched on and the lifecycle is a buildpack one. */
  predicate StagesDirectly(settings: Config, details: StagingDetails)
  {
    settings.temporaryLocalStaging && details.lifecycle == Some(Buildpack)
  }

  /** Running and stopping apps go to the BBS exactly when local apps are switched on. */
  predicate RunsDirectly(settings: Config)
  {
    settings.temporaryLocalApps
  }

  /** DesireAppHandler.create_or_update_app: update an LRP the BBS already holds, create one otherwise. */
  function ReconcileCall(deployed: set<string>, processGuid: string, lrp: DesiredLrp): Call
  {
    if processGuid in deployed then BbsUpdateApp(processGuid, lrp) else BbsDesireApp(processGuid, lrp)
  }

  /** The call send_stage_request issues. */
  function StageCall(settings: Config, config: Config, details: StagingDetails): Call
  {
    if StagesDirectly(settings, details) then BbsStage(details.dropletGuid, StagingTask(config, details))
    else StagerStage(details.dropletGuid, StagePackageRequest(config, details))
  }

  /** The call send_desire_request issues, given the process guids the BBS already holds. */
  function DesireCall(settings: Config, config: Config, process: Process, deployed: set<string>): Call
  {
    var timeout := config.defaultHealthCheckTimeout;
    if RunsDirectly(settings) then
      ReconcileCall(deployed, ProcessGuid(process), BuildAppLrp(AppRecipeBuilder(config, process, DesireAppMessage(process, timeout))))
    else NsyncDesireApp(ProcessGuid(process), DesireAppRequest(process, timeout))
  }

  /** The call send_stop_staging_request issues. */
  function StopStagingCall(stagingGuid: string): Call
  {
    StagerStopStaging(stagingGuid)
  }

  /** The call send_stop_index_request issues. */
  function StopIndexCall(process: Process, index: int): Call
  {
    NsyncStopIndex(ProcessGuid(process), index)
  }

  /** The call send_stop_app_request issues. */
  function StopAppCall(settings: Config, process: Process): Call
  {
    if RunsDirectly(settings) then BbsStopApp(ProcessGuid(process)) else NsyncStopApp(ProcessGuid(process))
  }

  /** The desired LRPs the BBS holds after a call: desire and update set the key, stop removes it. */
  function Deployed(lrps: map<string, DesiredLrp>, c: Call): map<string, DesiredLrp>
  {
    match c
    case BbsDesireApp(g, lrp) => lrps[g := lrp]
    case BbsUpdateApp(g, lrp) => lrps[g := lrp]
    case BbsStopApp(g) => lrps - {g}
    case _ => lrps
  }

  /** The call logs of the four clients after one more call. */
  function Record(logs: map<ClientName, seq<Call>>, c: Call): (after: map<ClientName, seq<Call>>)
    requires Recipient(c) in logs
    ensures after.Keys == logs.Keys
    ensures after[Recipient(c)] == logs[Recipient(c)] + [c]
    ensures forall n :: n in logs && n != Recipient(c) ==> after[n] == logs[n]
  {
    logs[Recipient(c) := logs[Recipient(c)] + [c]]
  }

  /** Call logs kept for each of the four clients. */
  predicate Complete(logs: map<ClientName, seq<Call>>)
  {
    Stager in logs && Nsync in logs && BbsStager in logs && BbsApps in logs
  }

  /** The number of calls recorded on all four clients. */
  function TotalCalls(logs: map<ClientName, seq<Call>>): nat
    requires Complete(logs)
  {
    |logs[Stager]| + |logs[Nsync]| + |logs[BbsStager]| + |logs[BbsApps]|
  }

  /** Each dispatch is exactly one backend call: recording it adds one call to the total. */
  lemma {:induction false} OneCallPerDispatch(logs: map<ClientName, seq<Call>>, c: Call)
    requires Complete(logs)
    ensures Complete(Record(logs, c))
    ensures TotalCalls(Record(logs, c)) == TotalCalls(logs) + 1
  {
    var after := Record(logs, c);
    match Recipient(c)
    case Stager => assert after[Nsync] == logs[Nsync] && after[BbsStager] == logs[BbsStager] && after[BbsApps] == logs[BbsApps];
    case Nsync => assert after[Stager] == logs[Stager] && after[BbsStager] == logs[BbsStager] && after[BbsApps] == logs[BbsApps];
    case BbsStager => assert after[Stager] == logs[Stager] && after[Nsync] == logs[Nsync] && after[BbsApps] == logs[BbsApps];
    case BbsApps => assert after[Stager] == logs[Stager] && after[Nsync] == logs[Nsync] && after[BbsStager] == logs[BbsStager];
  }

  /**
   * Staging: the droplet guid addresses the call; the stager gets the
   * protocol's package request unless local staging is on and the lifecycle
   * is a buildpack one, in which case the BBS stager gets the recipe
   * builder's staging task. A Docker lifecycle stages through the stager;
   * a staging with no lifecycle recorded is routed there too, a choice of
   * this model.
   */
  lemma StageRouting(settings: Config, config: Config, details: StagingDetails)
    ensures var c := StageCall(settings, config, details);
      c.stagingGuid == details.dropletGuid
      && (Recipient(c) == BbsStager <==> settings.temporaryLocalStaging && details.lifecycle == Some(Buildpack))
      && (Recipient(c) == BbsStager ==> c == BbsStage(details.dropletGuid, StagingTask(config, details)))
      && (Recipient(c) != BbsStager ==> c == StagerStage(details.dropletGuid, StagePackageRequest(config, details)))
      && Recipient(c) in {Stager, BbsStager}
  {
  }

  /**
   * Desiring an app: with local apps off, nsync gets the protocol's desire
   * request built with the configured timeout; with them on, the BBS apps
   * client gets the LRP the recipe builder makes from the config, the process
   * and the desire message built with that timeout. Either way the call is
   * addressed by the process guid.
   */
  lemma DesireRouting(settings: Config, config: Config, process: Process, deployed: set<string>)
    ensures var c := DesireCall(settings, config, process, deployed);
      var timeout := config.defaultHealthCheckTimeout;
      c.processGuid == ProcessGuid(process)
      && (!settings.temporaryLocalApps ==> c == NsyncDesireApp(ProcessGuid(process), DesireAppRequest(process, timeout)))
      && (settings.temporaryLocalApps ==>
            (c.BbsDesireApp? || c.BbsUpdateApp?)
            && c.lrp == BuildAppLrp(AppRecipeBuilder(config, process, DesireAppMessage(process, timeout))))
  {
  }

  /** A process the BBS does not hold yet is created, not updated; one it holds is updated. */
  lemma CreateWhenAbsent(settings: Config, config: Config, process: Process, deployed: set<string>)
    requires settings.temporaryLocalApps
    ensures DesireCall(settings, config, process, deployed).BbsDesireApp? <==> ProcessGuid(process) !in deployed
    ensures DesireCall(settings, config, process, deployed).BbsUpdateApp? <==> ProcessGuid(process) in deployed
  {
  }

  /** Desiring the same process twice leaves the BBS as desiring it once, and the result holds exactly the built LRP under the process guid. */
  lemma {:induction false} DesireIdempotent(settings: Config, config: Config, process: Process, lrps: map<string, DesiredLrp>)
    ensures var once := Deployed(lrps, DesireCall(settings, config, process, lrps.Keys));
      Deployed(once, DesireCall(settings, config, process, once.Keys)) == once
    ensures settings.temporaryLocalApps ==>
      var once := Deployed(lrps, DesireCall(settings, config, process, lrps.Keys));
      ProcessGuid(process) in once
      && once[ProcessGuid(process)] == BuildAppLrp(AppRecipeBuilder(config, process, DesireAppMessage(process, config.defaultHealthCheckTimeout)))
      && (forall g :: g in lrps && g != ProcessGuid(process) ==> g in once && once[g] == lrps[g])
  {
    var key := ProcessGuid(process);
    var lrp := BuildAppLrp(AppRecipeBuilder(config, process, DesireAppMessage(process, config.defaultHealthCheckTimeout)));
    var once := Deployed(lrps, DesireCall(settings, config, process, lrps.Keys));
    if settings.temporaryLocalApps {
      assert once == lrps[key := lrp];
      assert key in once.Keys;
      assert DesireCall(settings, config, process, once.Keys) == BbsUpdateApp(key, lrp);
      assert once[key := lrp] == once;
    }
  }

  /** Stopping staging always reaches the stager, with the staging guid unchanged, whatever the switches. */
  lemma StopStagingRouting(stagingGuid: string)
    ensures Recipient(StopStagingCall(stagingGuid)) == Stager
    ensures StopStagingCall(stagingGuid).stagingGuid == stagingGuid
  {
  }

  /** Stopping one instance always reaches nsync with the process guid and the index unchanged. */
  lemma StopIndexRouting(process: Process, index: int)
    ensures Recipient(StopIndexCall(process, index)) == Nsync
    ensures StopIndexCall(process, index).processGuid == ProcessGuid(process)
    ensures StopIndexCall(process, index).index == index
  {
  }

  /** Stopping an app reaches nsync, or the BBS apps client when local apps are on, with the process guid; the BBS then no longer holds it. */
  lemma StopAppRouting(settings: Config, process: Process, lrps: map<string, DesiredLrp>)
    ensures StopAppCall(settings, process).processGuid == ProcessGuid(process)
    ensures Recipient(StopAppCall(settings, process)) == (if settings.temporaryLocalApps then BbsApps else Nsync)
    ensures settings.temporaryLocalApps ==> ProcessGuid(process) !in Deployed(lrps, StopAppCall(settings, process))
    ensures !settings.temporaryLocalApps ==> Deployed(lrps, StopAppCall(settings, process)) == lrps
  {
  }
}

/** The four back-end clients, each recording the calls it receives. */
module DiegoClients {
  import opened DiegoTypes
  import opened DiegoRouting

  /** The stager (legacy staging back end). */
  class StagerClient {
    var calls: seq<Call>

    constructor()
      ensures calls == []
    {
      calls := [];
    }

    method Stage(stagingGuid: string, message: StagePayload)
      modifies this
      ensures calls == old(calls) + [StagerStage(stagingGuid, message)]
    {
      calls := calls + [StagerStage(stagingGuid, message)];
    }

    method StopStaging(stagingGuid: string)
      modifies this
      ensures calls == old(calls) + [StagerStopStaging(stagingGuid)]
    {
      calls := calls + [StagerStopStaging(stagingGuid)];
    }
  }

  /** nsync (legacy run back end). */
  class NsyncClient {
    var calls: seq<Call>

    constructor()
      ensures calls == []
    {
      calls := [];
    }

    method DesireApp(processGuid: string, message: DesirePayload)
      modifies this
      ensures calls == old(calls) + [NsyncDesireApp(processGuid, message)]
    {
      calls := calls + [NsyncDesireApp(processGuid, message)];
    }

    method StopIndex(processGuid: string, index: int)
      modifies this
      ensures calls == old(calls) + [NsyncStopIndex(processGuid, index)]
    {
      calls := calls + [NsyncStopIndex(processGuid, index)];
    }

    method StopApp(processGuid: string)
      modifies this
      ensures calls == old(calls) + [NsyncStopApp(processGuid)]
    {
      calls := calls + [NsyncStopApp(processGuid)];
    }
  }

  /** The BBS stager client (direct staging back end). */
  class BbsStagerClient {
    var calls: seq<Call>

    constructor()
      ensures calls == []
    {
      calls := [];
    }

    method Stage(stagingGuid: string, message: StagePayload)
      modifies this
      ensures calls == old(calls) + [BbsStage(stagingGuid, message)]
    {
      calls := calls + [BbsStage(stagingGuid, message)];
    }
  }

  /** The BBS apps client (direct run back end): its calls and the desired LRPs the BBS holds by process guid. */
  class BbsAppsClient {
    var calls: seq<Call>
    var lrps: map<string, DesiredLrp>

    constructor(existing: map<string, DesiredLrp>)
      ensures calls == [] && lrps == existing
    {
      calls := [];
      lrps := existing;
    }

    method DesireApp(processGuid: string, lrp: DesiredLrp)
      modifies this
      ensures calls == old(calls) + [BbsDesireApp(processGuid, lrp)]
      ensures lrps == old(lrps)[processGuid := lrp]
    {
      calls := calls + [BbsDesireApp(processGuid, lrp)];
      lrps := lrps[processGuid := lrp];
    }

    method UpdateApp(processGuid: string, lrp: DesiredLrp)
      modifies this
      ensures calls == old(calls) + [BbsUpdateApp(processGuid, lrp)]
      ensures lrps == old(lrps)[processGuid := lrp]
    {
      calls := calls + [BbsUpdateApp(processGuid, lrp)];
      lrps := lrps[processGuid := lrp];
    }

    method StopApp(processGuid: string)
      modifies this
      ensures calls == old(calls) + [BbsStopApp(processGuid)]
      ensures lrps == old(lrps) - {processGuid}
    {
      calls := calls + [BbsStopApp(processGuid)];
      lrps := lrps - {processGuid};
    }
  }

  /**
   * DesireAppHandler.create_or_update_app: asks the BBS whether it holds an
   * LRP under the process guid, updates it if so and creates it otherwise.
   */
  method CreateOrUpdateApp(processGuid: string, builder: AppRecipeBuilder, client: BbsAppsClient)
    modifies client
    ensures client.calls == old(client.calls) + [ReconcileCall(old(client.lrps).Keys, processGuid, BuildAppLrp(builder))]
    ensures client.lrps == old(client.lrps)[processGuid := BuildAppLrp(builder)]
  {
    var lrp := BuildAppLrp(builder);
    if processGuid in client.lrps {
      client.UpdateApp(processGuid, lrp);
    } else {
      client.DesireApp(processGuid, lrp);
    }
  }
}

/** Diego::Messenger: the dispatcher. */
module DiegoMessenger {
  import opened DiegoTypes
  import opened DiegoRouting
  import opened DiegoClients

  class Messenger {
    /** The configuration whose `diego` switches select the back ends. */
    const settings: Config
    const stagerClient: StagerClient
    const nsyncClient: NsyncClient
    const bbsStagerClient: BbsStagerClient
    const bbsAppsClient: BbsAppsClient

    constructor(settings: Config, stager: StagerClient, nsync: NsyncClient, bbsStager: BbsStagerClient, bbsApps: BbsAppsClient)
      ensures this.settings == settings
      ensures stagerClient == stager && nsyncClient == nsync
      ensures bbsStagerClient == bbsStager && bbsAppsClient == bbsApps
    {
      this.settings := settings;
      stagerClient := stager;
      nsyncClient := nsync;
      bbsStagerClient := bbsStager;
      bbsAppsClient := bbsApps;
    }

    /** The call logs of the four clients. */
    ghost function Logs(): (logs: map<ClientName, seq<Call>>)
      reads stagerClient, nsyncClient, bbsStagerClient, bbsAppsClient
      ensures Complete(logs)
      ensures logs[Stager] == stagerClient.calls && logs[Nsync] == nsyncClient.calls
      ensures logs[BbsStager] == bbsStagerClient.calls && logs[BbsApps] == bbsAppsClient.calls
    {
      map[Stager := stagerClient.calls, Nsync := nsyncClient.calls,
          BbsStager := bbsStagerClient.calls, BbsApps := bbsAppsClient.calls]
    }

    /** send_stage_request: one staging call, addressed by the droplet guid, on the back end StageCall picks. */
    method SendStageRequest(config: Config, details: StagingDetails)
      modifies stagerClient, bbsStagerClient
      ensures Logs() == Record(old(Logs()), StageCall(settings, config, details))
      ensures bbsAppsClient.lrps == old(bbsAppsClient.lrps)
    {
      if StagesDirectly(settings, details) {
        var message := StagingTask(config, details);
        bbsStagerClient.Stage(details.dropletGuid, message);
      } else {
        var message := StagePackageRequest(config, details);
        stagerClient.Stage(details.dropletGuid, message);
      }
    }

    /** send_desire_request: one desire call for the process, to nsync or reconciled against the BBS. */
    method SendDesireRequest(process: Process, config: Config)
      modifies nsyncClient, bbsAppsClient
      ensures Logs() == Record(old(Logs()), DesireCall(settings, config, process, old(bbsAppsClient.lrps).Keys))
      ensures bbsAppsClient.lrps == Deployed(old(bbsAppsClient.lrps), DesireCall(settings, config, process, old(bbsAppsClient.lrps).Keys))
    {
      var processGuid := ProcessGuid(process);
      var timeout := config.defaultHealthCheckTimeout;
      if RunsDirectly(settings) {
        var message := DesireAppMessage(process, timeout);
        var builder := AppRecipeBuilder(config, process, message);
        CreateOrUpdateApp(processGuid, builder, bbsAppsClient);
      } else {
        var message := DesireAppRequest(process, timeout);
        nsyncClient.DesireApp(processGuid, message);
      }
    }

    /** send_stop_staging_request: the staging guid goes to the stager unchanged. */
    method SendStopStagingRequest(stagingGuid: string)
      modifies stagerClient
      ensures Logs() == Record(old(Logs()), StopStagingCall(stagingGuid))
      ensures bbsAppsClient.lrps == old(bbsAppsClient.lrps)
    {
      stagerClient.StopStaging(stagingGuid);
    }

    /** send_stop_index_request: the process guid and the index go to nsync. */
    method SendStopIndexRequest(process: Process, index: int)
      modifies nsyncClient
      ensures Logs() == Record(old(Logs()), StopIndexCall(process, index))
      ensures bbsAppsClient.lrps == old(bbsAppsClient.lrps)
    {
      nsyncClient.StopIndex(ProcessGuid(process), index);
    }

    /** send_stop_app_request: the process guid goes to nsync, or to the BBS apps client when local apps are on. */
    method SendStopAppRequest(process: Process)
      modifies nsyncClient, bbsAppsClient
      ensures Logs() == Record(old(Logs()), StopAppCall(settings, process))
      ensures bbsAppsClient.lrps == Deployed(old(bbsAppsClient.lrps), StopAppCall(settings, process))
    {
      if RunsDirectly(settings) {
        bbsAppsClient.StopApp(ProcessGuid(process));
      } else {
        nsyncClient.StopApp(ProcessGuid(process));
      }
    }
  }

  /**
   * With local apps on, desiring an app the BBS does not hold yet creates it,
   * and desiring it again updates it to the same LRP: the BBS ends as after
   * the first request, and each request was one call.
   */
  method DesireTwice(m: Messenger, process: Process, config: Config)
    requires m.settings.temporaryLocalApps
    requires ProcessGuid(process) !in m.bbsAppsClient.lrps
    modifies m.nsyncClient, m.bbsAppsClient
    ensures |m.bbsAppsClient.calls| == |old(m.bbsAppsClient.calls)| + 2
    ensures m.bbsAppsClient.calls[|old(m.bbsAppsClient.calls)|].BbsDesireApp?
    ensures m.bbsAppsClient.calls[|old(m.bbsAppsClient.calls)| + 1].BbsUpdateApp?
    ensures m.nsyncClient.calls == old(m.nsyncClient.calls)
    ensures m.bbsAppsClient.lrps == Deployed(old(m.bbsAppsClient.lrps), DesireCall(m.settings, config, process, old(m.bbsAppsClient.lrps).Keys))
  {
    ghost var before := m.bbsAppsClient.lrps;
    m.SendDesireRequest(process, config);
    assert Recipient(DesireCall(m.settings, config, process, before.Keys)) == BbsApps;
    ghost var once := m.bbsAppsClient.lrps;
    m.SendDesireRequest(process, config);
    assert Recipient(DesireCall(m.settings, config, process, once.Keys)) == BbsApps;
    DesireIdempotent(m.settings, config, process, old(m.bbsAppsClient.lrps));
  }
}
