/**
 Experiment templates as far as the run state machine and template reload look at them:
 an ordered list of DAG nodes, a list of services, and a number of cycles.
 */
module Templates {
  import opened Options

  type StageId = string
  type ServiceId = string

  /**
   One DAG node. `conditional` says that the `returns_data` field was set, and `serviceId` is
   present on service-call nodes. `content` stands for the rest of the JSON document, compared
   by its canonical dump.
   */
  datatype Stage = Stage(
    stageId: StageId,
    conditional: bool,
    snapshotAfter: bool,
    serviceId: Option<ServiceId>,
    content: string)

  datatype Service = Service(serviceId: ServiceId, content: string)

  datatype Template = Template(
    stages: seq<Stage>,
    services: seq<Service>,
    cycles: nat,
    snapshotAfterEpoch: bool)

  /** The ids of a list of nodes. */
  function StageIds(stages: seq<Stage>): (ids: set<StageId>)
    ensures forall i :: 0 <= i < |stages| ==> stages[i].stageId in ids
  {
    if stages == [] then {} else {stages[0].stageId} + StageIds(stages[1..])
  }

  ghost predicate UniqueStageIds(stages: seq<Stage>) {
    forall i, j :: 0 <= i < j < |stages| ==> stages[i].stageId != stages[j].stageId
  }

  /** What the template model itself checks: at least one node, at least one cycle, distinct ids. */
  ghost predicate ValidTemplate(t: Template) {
    && |t.stages| >= 1
    && t.cycles >= 1
    && UniqueStageIds(t.stages)
  }

  /** Position lookup, the search behind `next(index for index, item in enumerate(...))`. */
  function IndexOf(stages: seq<Stage>, id: StageId): (index: nat)
    requires id in StageIds(stages)
    ensures index < |stages| && stages[index].stageId == id
    ensures forall i :: 0 <= i < index ==> stages[i].stageId != id
  {
    if stages[0].stageId == id then 0 else 1 + IndexOf(stages[1..], id)
  }

  lemma {:induction false} StageIdsAre(stages: seq<Stage>, id: StageId)
    ensures id in StageIds(stages) <==> exists i :: 0 <= i < |stages| && stages[i].stageId == id
  {
    if stages != [] {
      StageIdsAre(stages[1..], id);
      if id in StageIds(stages[1..]) {
        var i :| 0 <= i < |stages[1..]| && stages[1..][i].stageId == id;
        assert stages[i + 1].stageId == id;
      }
    }
  }

  lemma {:induction false} StageIdsOfSlice(stages: seq<Stage>, from: nat, to: nat)
    requires from <= to <= |stages|
    ensures StageIds(stages[from..to]) <= StageIds(stages)
    ensures forall i :: from <= i < to ==> stages[i].stageId in StageIds(stages[from..to])
  {
    forall id | id in StageIds(stages[from..to]) ensures id in StageIds(stages) {
      StageIdsAre(stages[from..to], id);
    }
    forall i | from <= i < to ensures stages[i].stageId in StageIds(stages[from..to]) {
      assert stages[from..to][i - from] == stages[i];
    }
  }
}
