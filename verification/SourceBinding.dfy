/**
 The binding of a source to the process-wide CAN bus: how results are mapped, when a source takes and drops its
 cleanup claim, and what that means for any number of sources sharing the one bus. The bus enters through the
 contracts that BusTheorems.dfy proves of start() and stop() in every interleaving.
*/
module SourceBinding {
  import opened Telemetry
  import BusMachine
  import opened BusTheorems

  function MapStartResult(result: BusMachine.Result): ResultCode {
    match result
    case Ok => ResultCode.Ok
    case InvalidConfiguration => ResultCode.InvalidConfiguration
    case AlreadyStarted => AlreadyRunning
    case StoppingNow => ResultCode.Stopping
    case FaultedNow => ResultCode.Faulted
    case DriverFailure => ResultCode.Faulted
    case TaskFailure => ResultCode.Faulted
    case NotStarted => InvalidState
    case Timeout => InvalidState
  }

  function MapStopResult(result: BusMachine.Result): ResultCode {
    match result
    case Ok => ResultCode.Ok
    case NotStarted => NotRunning
    case StoppingNow => ResultCode.Stopping
    case Timeout => ResultCode.Timeout
    case FaultedNow => ResultCode.Faulted
    case DriverFailure => ResultCode.Faulted
    case TaskFailure => ResultCode.Faulted
    case InvalidConfiguration => InvalidState
    case AlreadyStarted => InvalidState
  }

  /** What the bus does when it is called: result, flag, whether the driver is installed then, and any failure. */
  datatype BusReply = BusReply(result: BusMachine.Result, cleanupRequired: bool, installed: bool, failed: bool)

  predicate StartReply(installed: bool, reply: BusReply) {
    StartContract(installed, reply.installed, reply.failed, reply.result, reply.cleanupRequired)
  }

  predicate StopReply(installed: bool, reply: BusReply) {
    StopContract(installed, reply.installed, reply.failed, reply.result)
  }

  /** The answer of a source, its claim afterwards, and whether the driver is installed afterwards. */
  datatype Answer = Answer(code: ResultCode, claim: bool, installed: bool)

  function SourceStart(claim: bool, reply: BusReply): Answer {
    Answer(MapStartResult(reply.result), claim || reply.cleanupRequired, reply.installed)
  }

  /** stop() and retry_stop(): without a claim the bus is not called. */
  function SourceStop(claim: bool, installed: bool, reply: BusReply): Answer {
    if !claim then Answer(NotRunning, false, installed)
    else
      var code := MapStopResult(reply.result);
      Answer(code, !code.Ok? && !code.NotRunning?, reply.installed)
  }

  // --- any number of sources on the one bus --------------------------------------------------------------------

  datatype Claimant = Claimant(configuration: nat, claim: bool)

  datatype Fleet = Fleet(sources: seq<Claimant>, installed: bool)

  datatype Action =
    | Construct(configuration: nat)
    | Start(source: nat, reply: BusReply)
    | Stop(source: nat, reply: BusReply)
    | Copy(source: nat)
    | Assign(target: nat, source: nat)

  function SetClaim(f: Fleet, i: nat, a: Answer): Fleet
    requires i < |f.sources|
  {
    Fleet(f.sources[i := f.sources[i].(claim := a.claim)], a.installed)
  }

  /** Copies carry the configuration only; assignment keeps the target's claim. `Stop` stands for retry_stop() too. */
  function Step(f: Fleet, a: Action): Fleet {
    match a
    case Construct(configuration) => f.(sources := f.sources + [Claimant(configuration, false)])
    case Start(i, reply) =>
      if i < |f.sources| && StartReply(f.installed, reply) then SetClaim(f, i, SourceStart(f.sources[i].claim, reply))
      else f
    case Stop(i, reply) =>
      if i < |f.sources| && StopReply(f.installed, reply) then
        SetClaim(f, i, SourceStop(f.sources[i].claim, f.installed, reply))
      else f
    case Copy(i) =>
      if i < |f.sources| then f.(sources := f.sources + [Claimant(f.sources[i].configuration, false)]) else f
    case Assign(i, j) =>
      if i < |f.sources| && j < |f.sources| then
        f.(sources := f.sources[i := f.sources[i].(configuration := f.sources[j].configuration)])
      else f
  }

  function Run(actions: seq<Action>): Fleet {
    if actions == [] then Fleet([], false)
    else Step(Run(actions[..|actions| - 1]), actions[|actions| - 1])
  }

  ghost predicate OneClaim(f: Fleet) {
    && (forall i, j | 0 <= i < |f.sources| && 0 <= j < |f.sources| ::
          f.sources[i].claim && f.sources[j].claim ==> i == j)
    && (f.installed <==> exists i :: 0 <= i < |f.sources| && f.sources[i].claim)
  }

  lemma SetClaimKeepsOne(f: Fleet, i: nat, a: Answer)
    requires OneClaim(f) && i < |f.sources| && a.claim == (a.installed && (f.sources[i].claim || !f.installed))
    requires a.installed && !a.claim ==> f.installed && !f.sources[i].claim
    requires !a.installed ==> f.sources[i].claim || !f.installed
    ensures OneClaim(SetClaim(f, i, a))
  {
    var t := SetClaim(f, i, a);
    if a.claim {
      assert t.sources[i].claim;
    } else if a.installed {
      var k :| 0 <= k < |f.sources| && f.sources[k].claim;
      assert t.sources[k].claim;
    }
  }

  lemma StepKeepsOneClaim(f: Fleet, a: Action)
    requires OneClaim(f)
    ensures OneClaim(Step(f, a))
  {
    var t := Step(f, a);
    match a {
      case Start(i, reply) =>
        if i < |f.sources| && StartReply(f.installed, reply) {
          SetClaimKeepsOne(f, i, SourceStart(f.sources[i].claim, reply));
        }
      case Stop(i, reply) =>
        if i < |f.sources| && StopReply(f.installed, reply) {
          SetClaimKeepsOne(f, i, SourceStop(f.sources[i].claim, f.installed, reply));
        }
      case _ =>
        forall i | 0 <= i < |t.sources| ensures t.sources[i].claim <==> i < |f.sources| && f.sources[i].claim {}
        if f.installed {
          var k :| 0 <= k < |f.sources| && f.sources[k].claim;
          assert t.sources[k].claim;
        }
    }
  }

  /**
   Over every history of construction, copies, assignments, starts, stops and retries: at most one source holds
   the cleanup claim, and one does exactly when the driver is installed.
  */
  lemma {:induction false} ClaimFollowsTheDriver(actions: seq<Action>)
    ensures OneClaim(Run(actions))
  {
    if actions == [] {
    } else {
      ClaimFollowsTheDriver(actions[..|actions| - 1]);
      StepKeepsOneClaim(Run(actions[..|actions| - 1]), actions[|actions| - 1]);
    }
  }

  /**
   A start reports that cleanup is required exactly when that very attempt leaves the driver installed; a source
   that had no claim takes one exactly then, and no other source's claim moves.
  */
  lemma StartClaimsWhatItInstalled(actions: seq<Action>, i: nat, reply: BusReply)
    ensures var f := Run(actions);
            var t := Step(f, Start(i, reply));
            i < |f.sources| && StartReply(f.installed, reply) ==>
              && (reply.cleanupRequired <==> !f.installed && t.installed)
              && (t.sources[i].claim <==> f.sources[i].claim || (!f.installed && t.installed))
              && (forall j :: 0 <= j < |f.sources| && j != i ==> t.sources[j] == f.sources[j])
  {
  }

  /**
   What the two calls of a source answer, over every history: a start answers Ok exactly when that attempt installed
   the driver and nothing failed, passes a refusal of the bus on, and answers Faulted for every failure; a stop through
   a source with the claim answers Ok exactly when it released the driver, and otherwise Faulted, with driver and
   claim kept.
  */
  lemma AnswersTellTheOutcome(actions: seq<Action>, i: nat, reply: BusReply)
    ensures var f := Run(actions);
            i < |f.sources| && StartReply(f.installed, reply) ==>
              var a := SourceStart(f.sources[i].claim, reply);
              && (a.code.Ok? <==> !f.installed && a.installed && !reply.failed)
              && (f.installed ==> a.installed && a.claim == f.sources[i].claim)
              && (a.code.AlreadyRunning? <==> reply.result.AlreadyStarted?)
              && (a.code.InvalidConfiguration? <==> reply.result.InvalidConfiguration?)
              && (a.code.Stopping? <==> reply.result.StoppingNow?)
              && (a.code.Faulted? <==>
                    reply.result in {BusMachine.FaultedNow, BusMachine.DriverFailure, BusMachine.TaskFailure})
    ensures var f := Run(actions);
            i < |f.sources| && f.sources[i].claim && StopReply(f.installed, reply) ==>
              var a := SourceStop(true, f.installed, reply);
              && (a.code.Ok? <==> !a.installed) && (a.code.Ok? <==> !reply.failed)
              && (!a.code.Ok? ==> a.code.Faulted? && a.installed && a.claim)
  {
    ClaimFollowsTheDriver(actions);
  }

  /** Every result of the bus has its one code, for a start and for a stop. */
  lemma CodesNameResults(result: BusMachine.Result)
    ensures var started, stopped := MapStartResult(result), MapStopResult(result);
            && (started.Ok? <==> result.Ok?) && (stopped.Ok? <==> result.Ok?)
            && (started.Faulted? <==>
                  result in {BusMachine.FaultedNow, BusMachine.DriverFailure, BusMachine.TaskFailure})
            && (stopped.Faulted? <==> started.Faulted?)
            && (started.Stopping? <==> result.StoppingNow?) && (stopped.Stopping? <==> result.StoppingNow?)
            && (started.InvalidConfiguration? <==> result.InvalidConfiguration?)
            && (started.AlreadyRunning? <==> result.AlreadyStarted?)
            && (started.InvalidState? <==> result in {BusMachine.NotStarted, BusMachine.Timeout})
            && (stopped.NotRunning? <==> result.NotStarted?) && (stopped.Timeout? <==> result.Timeout?)
            && (stopped.InvalidState? <==> result in {BusMachine.InvalidConfiguration, BusMachine.AlreadyStarted})
  {
  }

  /**
   What happens to the sources, over every history: a new one and a copy come last and hold no claim, a copy and an
   assignment take over the configuration and nothing else, a stop through the claim drops it exactly if it released
   the driver, and nothing but a start or a stop moves the driver.
  */
  lemma SourcesFollowTheirOperations(actions: seq<Action>, i: nat, j: nat, configuration: nat, reply: BusReply)
    ensures Run([]) == Fleet([], false)
    ensures var f := Run(actions);
            && Step(f, Construct(configuration))
               == Fleet(f.sources + [Claimant(configuration, false)], f.installed)
            && (i < |f.sources| ==>
                  Step(f, Copy(i)) == Fleet(f.sources + [Claimant(f.sources[i].configuration, false)], f.installed))
            && (i < |f.sources| && j < |f.sources| ==>
                  Step(f, Assign(i, j))
                  == Fleet(f.sources[i := Claimant(f.sources[j].configuration, f.sources[i].claim)], f.installed))
    ensures var f := Run(actions);
            var t := Step(f, Stop(i, reply));
            i < |f.sources| && f.sources[i].claim && StopReply(f.installed, reply) ==>
              && t.installed == t.sources[i].claim == reply.failed
              && t.sources == f.sources[i := Claimant(f.sources[i].configuration, t.installed)]
  {
    ClaimFollowsTheDriver(actions);
  }

  /** stop() through a source without a claim answers NotRunning and leaves the bus and every claim alone. */
  lemma StrangerCannotStop(actions: seq<Action>, i: nat, reply: BusReply)
    ensures var f := Run(actions);
            i < |f.sources| && !f.sources[i].claim ==>
              && Step(f, Stop(i, reply)) == f
              && SourceStop(f.sources[i].claim, f.installed, reply).code.NotRunning?
  {
    var f := Run(actions);
    if i < |f.sources| && !f.sources[i].claim {
      assert f.sources[i := f.sources[i].(claim := false)] == f.sources;
    }
  }
}
