/** The offer loop of `resourceOffers`, as a function of the state before the batch, together
    with what it guarantees over a whole batch. */
module Offers {
  import opened Mesos
  import opened Lists
  import opened SchedulerState

  /** Filters sent with every answer: the master should not re-offer unused resources for one second. */
  const RefuseOneSecond: Filters := Filters(1.0)

  /** What a launched task looks like: its ID and name, the offer's agent, the configured CPU and
      memory as scalar resources, a bridge-networked Docker container with the configured image,
      force-pull flag and volumes, and the configured command. */
  ghost predicate TaskConforms(cfg: Config, offer: Offer, id: TaskId, t: TaskInfo) {
    && t.taskId == id
    && t.name == "task " + id
    && t.slaveId == offer.slaveId
    && |t.resources| == 2
    && t.resources[0] == Resource("cpus", Scalar, cfg.cpu)
    && t.resources[1] == Resource("mem", Scalar, cfg.memory)
    && t.container.containerType == Docker
    && t.container.docker.image == cfg.imageName
    && t.container.docker.network == Bridge
    && t.container.docker.forcePullImage == cfg.forcePullImage
    && t.container.volumes == cfg.volumes
    && t.command == cfg.command
  }

  /** The task built for `offer` under the freshly generated `id`. */
  function BuildTask(cfg: Config, offer: Offer, id: TaskId): (t: TaskInfo)
    ensures TaskConforms(cfg, offer, id, t)
  {
    var docker := DockerInfo(cfg.imageName, Bridge, cfg.forcePullImage);
    var container :=
      if |cfg.volumes| > 0 then ContainerInfo(Docker, docker, cfg.volumes)
      else ContainerInfo(Docker, docker, []);
    TaskInfo(
      "task " + id, id, offer.slaveId,
      [Resource("cpus", Scalar, cfg.cpu), Resource("mem", Scalar, cfg.memory)],
      container, cfg.command)
  }

  /** The state threaded through the loop: the two lists, the driver calls made so far and the
      number of IDs taken from the ID generator (`ids(k)` is the k-th ID it hands out). */
  datatype Outcome = Outcome(instances: Instances, calls: seq<DriverCall>, issued: nat)

  /** One iteration of the loop over the offers. */
  function Step(cfg: Config, allows: Offer -> bool, ids: nat -> TaskId, o: Outcome, offer: Offer): (o': Outcome)
    ensures |o'.calls| == |o.calls| + if allows(offer) then 1 else 0
    ensures o'.instances.running == o.instances.running
    ensures o'.issued == o.issued + if allows(offer) && o.instances.Total() < cfg.desiredInstances then 1 else 0
  {
    if !allows(offer) then o
    else if o.instances.Total() < cfg.desiredInstances then
      var id := ids(o.issued);
      Outcome(
        Instances(o.instances.pending + [id], o.instances.running),
        o.calls + [LaunchTasksCall(offer.id, [BuildTask(cfg, offer, id)], RefuseOneSecond)],
        o.issued + 1)
    else
      Outcome(o.instances, o.calls + [LaunchTasksCall(offer.id, [], RefuseOneSecond)], o.issued)
  }

  /** The loop run over a whole batch, one offer after the other. */
  function Run(cfg: Config, allows: Offer -> bool, ids: nat -> TaskId, start: Outcome, offers: seq<Offer>): (r: Outcome)
    ensures |start.calls| <= |r.calls| <= |start.calls| + |offers|
    ensures r.instances.running == start.instances.running
    decreases |offers|
  {
    if offers == [] then start
    else Step(cfg, allows, ids, Run(cfg, allows, ids, start, offers[..|offers| - 1]), offers[|offers| - 1])
  }

  /** The offers of a batch that the constraints checker lets through, in order. */
  function Accepted(allows: Offer -> bool, offers: seq<Offer>): (a: seq<Offer>)
    ensures |a| <= |offers|
    ensures forall o :: o in a ==> o in offers && allows(o)
    decreases |offers|
  {
    if offers == [] then []
    else
      var last := offers[|offers| - 1];
      Accepted(allows, offers[..|offers| - 1]) + if allows(last) then [last] else []
  }

  /** The filter keeps every allowed offer of the batch, as many times as it occurs there, and drops
      every other offer. */
  lemma {:induction false} AcceptedKeepsAllowedOffers(allows: Offer -> bool, offers: seq<Offer>)
    ensures forall o :: multiset(Accepted(allows, offers))[o] == if allows(o) then multiset(offers)[o] else 0
    decreases |offers|
  {
    if offers != [] {
      var init, last := offers[..|offers| - 1], offers[|offers| - 1];
      AcceptedKeepsAllowedOffers(allows, init);
      assert offers == init + [last];
    }
  }

  /** How many of `accepted` offers launch a task when `total` instances are already tracked:
      as many as there are offers, but never past `desired`. */
  function Launches(desired: int, total: nat, accepted: nat): (n: nat)
    ensures n <= accepted
    ensures n == 0 || total + n <= desired
    ensures n == accepted || total + n >= desired
  {
    if desired <= total then 0
    else if accepted <= desired - total then accepted
    else desired - total
  }

  /** The IDs handed out by the generator from position `from` on, `count` of them. */
  function IdRange(ids: nat -> TaskId, from: nat, count: nat): (r: seq<TaskId>) {
    seq(count, k requires 0 <= k < count => ids(from + k))
  }

  /** The answer sent for the j-th accepted offer when `n` of them launch. */
  function Answer(cfg: Config, ids: nat -> TaskId, from: nat, n: nat, j: nat, offer: Offer): (call: DriverCall) {
    LaunchTasksCall(offer.id, if j < n then [BuildTask(cfg, offer, ids(from + j))] else [], RefuseOneSecond)
  }

  /** One more accepted offer launches one more task exactly while the target is not reached. */
  lemma LaunchesNext(desired: int, total: nat, accepted: nat)
    ensures var n0, n := Launches(desired, total, accepted), Launches(desired, total, accepted + 1);
            && (total + n0 < desired ==> n0 == accepted && n == n0 + 1)
            && (total + n0 >= desired ==> n == n0)
  {
  }

  lemma IdRangeNext(ids: nat -> TaskId, from: nat, count: nat)
    ensures IdRange(ids, from, count + 1) == IdRange(ids, from, count) + [ids(from + count)]
  {
  }

  /** The lists and the IDs used after a batch: the next `n` generated IDs are appended to the
      pending list, where `n` is the number of launches, and the running list is untouched. */
  lemma {:induction false} RunInstances(cfg: Config, allows: Offer -> bool, ids: nat -> TaskId, s: Outcome, offers: seq<Offer>)
    ensures var r := Run(cfg, allows, ids, s, offers);
            var n := Launches(cfg.desiredInstances, s.instances.Total(), |Accepted(allows, offers)|);
            && r.issued == s.issued + n
            && r.instances.pending == s.instances.pending + IdRange(ids, s.issued, n)
            && r.instances.running == s.instances.running
    decreases |offers|
  {
    if offers != [] {
      var init, last := offers[..|offers| - 1], offers[|offers| - 1];
      RunInstances(cfg, allows, ids, s, init);
      var a0 := Accepted(allows, init);
      var t := s.instances.Total();
      var n0 := Launches(cfg.desiredInstances, t, |a0|);
      if allows(last) {
        assert Accepted(allows, offers) == a0 + [last];
        LaunchesNext(cfg.desiredInstances, t, |a0|);
        if t + n0 < cfg.desiredInstances {
          IdRangeNext(ids, s.issued, n0);
        }
      }
    }
  }

  /** The driver calls after a batch: one per accepted offer, in order, after the earlier ones; the
      first `n` carry one task each under the next `n` generated IDs and the rest an empty task list. */
  lemma {:induction false} RunCalls(cfg: Config, allows: Offer -> bool, ids: nat -> TaskId, s: Outcome, offers: seq<Offer>)
    ensures var r := Run(cfg, allows, ids, s, offers);
            var a := Accepted(allows, offers);
            var n := Launches(cfg.desiredInstances, s.instances.Total(), |a|);
            && |r.calls| == |s.calls| + |a|
            && r.calls[..|s.calls|] == s.calls
            && forall j :: 0 <= j < |a| ==> r.calls[|s.calls| + j] == Answer(cfg, ids, s.issued, n, j, a[j])
    decreases |offers|
  {
    if offers != [] {
      var init, last := offers[..|offers| - 1], offers[|offers| - 1];
      RunCalls(cfg, allows, ids, s, init);
      if allows(last) {
        RunInstances(cfg, allows, ids, s, init);
        var r0 := Run(cfg, allows, ids, s, init);
        var a0 := Accepted(allows, init);
        var t := s.instances.Total();
        var n0 := Launches(cfg.desiredInstances, t, |a0|);
        var a := a0 + [last];
        var n := Launches(cfg.desiredInstances, t, |a|);
        var r := Run(cfg, allows, ids, s, offers);
        assert Accepted(allows, offers) == a;
        LaunchesNext(cfg.desiredInstances, t, |a0|);
        assert r.calls == r0.calls + [Answer(cfg, ids, s.issued, n, |a0|, last)];
        forall j | 0 <= j < |a0| ensures r.calls[|s.calls| + j] == Answer(cfg, ids, s.issued, n, j, a[j]) {
          assert r.calls[|s.calls| + j] == r0.calls[|s.calls| + j];
        }
        assert r.calls[..|s.calls|] == r0.calls[..|s.calls|];
      }
    }
  }

  /** `call` answers `offer`: a launch on that offer with the one-second filter and at most one task. */
  ghost predicate Answers(call: DriverCall, offer: Offer) {
    call.LaunchTasksCall? && call.offerId == offer.id && call.filters == RefuseOneSecond && |call.tasks| <= 1
  }

  /** Every accepted offer gets exactly one driver call, so a batch adds as many calls as it has
      accepted offers; each call answers its offer with the one-second refuse filter and at most one task. */
  lemma {:induction false} OneAnswerPerAcceptedOffer(cfg: Config, allows: Offer -> bool, ids: nat -> TaskId, s: Outcome, offers: seq<Offer>)
    ensures var r := Run(cfg, allows, ids, s, offers);
            var a := Accepted(allows, offers);
            && |r.calls| == |s.calls| + |a|
            && forall j :: 0 <= j < |a| ==> Answers(r.calls[|s.calls| + j], a[j])
  {
    RunCalls(cfg, allows, ids, s, offers);
    var r := Run(cfg, allows, ids, s, offers);
    var a := Accepted(allows, offers);
    var n := Launches(cfg.desiredInstances, s.instances.Total(), |a|);
    forall j | 0 <= j < |a| ensures Answers(r.calls[|s.calls| + j], a[j]) {
      assert r.calls[|s.calls| + j] == Answer(cfg, ids, s.issued, n, j, a[j]);
    }
  }

  /** A task is launched on an accepted offer exactly when fewer instances than desired are tracked
      at that point; the new ID goes to the pending list only. */
  lemma StepLaunchRule(cfg: Config, allows: Offer -> bool, ids: nat -> TaskId, o: Outcome, offer: Offer)
    requires allows(offer)
    ensures var r := Step(cfg, allows, ids, o, offer);
            var launch := o.instances.Total() < cfg.desiredInstances;
            && r.calls == o.calls + [LaunchTasksCall(offer.id, r.calls[|o.calls|].tasks, RefuseOneSecond)]
            && (launch <==> |r.calls[|o.calls|].tasks| == 1)
            && (launch ==>
                  && r.instances.pending == o.instances.pending + [ids(o.issued)]
                  && TaskConforms(cfg, offer, ids(o.issued), r.calls[|o.calls|].tasks[0]))
            && (!launch ==> r.instances.pending == o.instances.pending && r.calls[|o.calls|].tasks == [])
            && r.instances.running == o.instances.running
  {
  }

  /** An offer the constraints checker rejects gets no answer at all and changes nothing, wherever it
      stands in the batch. */
  lemma {:induction false} RejectedOfferIsIgnored(cfg: Config, allows: Offer -> bool, ids: nat -> TaskId, s: Outcome,
                                                  before: seq<Offer>, offer: Offer, after: seq<Offer>)
    requires !allows(offer)
    ensures Run(cfg, allows, ids, s, before + [offer] + after) == Run(cfg, allows, ids, s, before + after)
    decreases |after|
  {
    if after == [] {
      assert before + [offer] + after == before + [offer];
      assert (before + [offer])[..|before|] == before;
      assert before + after == before;
    } else {
      var init, last := after[..|after| - 1], after[|after| - 1];
      RejectedOfferIsIgnored(cfg, allows, ids, s, before, offer, init);
      assert (before + [offer] + after)[..|before + [offer] + after| - 1] == before + [offer] + init;
      assert (before + after)[..|before + after| - 1] == before + init;
    }
  }

  /** A batch never takes `pending + running` past the larger of its starting value and the
      desired number of instances. */
  lemma {:induction false} ReplicaBound(cfg: Config, allows: Offer -> bool, ids: nat -> TaskId, s: Outcome, offers: seq<Offer>)
    ensures var r := Run(cfg, allows, ids, s, offers);
            && r.instances.Total() >= s.instances.Total()
            && (r.instances.Total() <= s.instances.Total() || r.instances.Total() <= cfg.desiredInstances)
  {
    RunInstances(cfg, allows, ids, s, offers);
  }

  /** The generator hands out IDs that are pairwise distinct and not yet tracked. */
  ghost predicate FreshIds(ids: nat -> TaskId, from: nat, inst: Instances) {
    && (forall k, m :: from <= k < m ==> ids(k) != ids(m))
    && (forall k :: from <= k ==> ids(k) !in inst.pending && ids(k) !in inst.running)
  }

  /** With fresh IDs, a batch keeps the pending and running lists apart and the pending list free of duplicates. */
  lemma {:induction false} RunKeepsWellFormed(cfg: Config, allows: Offer -> bool, ids: nat -> TaskId, s: Outcome, offers: seq<Offer>)
    requires s.instances.WellFormed()
    requires FreshIds(ids, s.issued, s.instances)
    ensures Run(cfg, allows, ids, s, offers).instances.WellFormed()
  {
    RunInstances(cfg, allows, ids, s, offers);
    var n := Launches(cfg.desiredInstances, s.instances.Total(), |Accepted(allows, offers)|);
    var newIds := IdRange(ids, s.issued, n);
    forall x | x in newIds ensures x !in s.instances.pending && x !in s.instances.running {
      var k :| 0 <= k < n && newIds[k] == x;
      assert x == ids(s.issued + k);
    }
    assert NoDuplicates(newIds) by {
      forall k, m | 0 <= k < m < n ensures newIds[k] != newIds[m] {
        assert newIds[k] == ids(s.issued + k) && newIds[m] == ids(s.issued + m);
      }
    }
    AppendNoDuplicates(s.instances.pending, newIds);
  }

  /** One wanted instance, nothing tracked, two accepted offers: the first offer launches a task and
      the second is answered with an empty task list. */
  lemma {:induction false} TwoOffersOneInstance(cfg: Config, allows: Offer -> bool, ids: nat -> TaskId, first: Offer, second: Offer)
    requires cfg.desiredInstances == 1 && allows(first) && allows(second)
    ensures var r := Run(cfg, allows, ids, Outcome(Instances([], []), [], 0), [first, second]);
            && r.instances == Instances([ids(0)], [])
            && r.calls == [LaunchTasksCall(first.id, [BuildTask(cfg, first, ids(0))], RefuseOneSecond),
                           LaunchTasksCall(second.id, [], RefuseOneSecond)]
  {
    var s := Outcome(Instances([], []), [], 0);
    assert [first, second][..1] == [first];
    assert [first][..0] == [];
    var r1 := Run(cfg, allows, ids, s, [first]);
    assert Run(cfg, allows, ids, s, []) == s;
    assert r1 == Step(cfg, allows, ids, s, first);
    assert r1.instances == Instances([ids(0)], []);
    assert Run(cfg, allows, ids, s, [first, second]) == Step(cfg, allows, ids, r1, second);
  }

  /** One wanted instance already running: an accepted offer is answered with an empty task list. */
  lemma {:induction false} AtTargetAnswersEmpty(cfg: Config, allows: Offer -> bool, ids: nat -> TaskId, id: TaskId, offer: Offer)
    requires cfg.desiredInstances == 1 && allows(offer)
    ensures var r := Run(cfg, allows, ids, Outcome(Instances([], [id]), [], 0), [offer]);
            && r.instances == Instances([], [id])
            && r.calls == [LaunchTasksCall(offer.id, [], RefuseOneSecond)]
  {
    assert [offer][..0] == [];
  }
}
