/**
 Admission, preemption and lease expiry on the node that runs the workspace pods.

 Provisioning runs under one lock. Disposal and the lease controller change pods beside it, without the lock, so
 the pods may differ between the capacity check, the choice of a victim and the kill.
 */
module Provision {
  import opened Options

  datatype Phase = Pending | Running | Ended

  datatype Kind = Spot | Dedicated | System

  /**
   `containers` holds the CPU request of each container, if any, in millicores. `asDedicated` and `lapsed`
   remember how the pod was created and which lease, running out, turned it into a spot pod.
   */
  datatype Pod = Pod(name: string, kind: Kind, phase: Phase, created: int, containers: seq<Option<nat>>,
                     asDedicated: bool, lapsed: Option<Lease>)

  /** Lease of a dedicated workspace, granted at `since`. */
  datatype Lease = Lease(pod: string, since: int, expiry: int)

  datatype Request = Request(name: string, dedicated: bool)

  /** Millicores; ages and times in one unit. */
  datatype Config = Config(allocatable: int, idle: int, wsCpu: int, spotAge: int, leaseTime: int)

  /** CPU request of the pod specification. */
  const POD_CPU: nat := 400

  /******* The capacity check *******/

  function OrZero(request: Option<nat>): nat {
    match request
    case None => 0
    case Some(n) => n
  }

  function Sum(containers: seq<Option<nat>>): nat {
    if containers == [] then 0
    else Sum(containers[..|containers| - 1]) + OrZero(containers[|containers| - 1])
  }

  function RunningCpu(pod: Pod): nat {
    if pod.phase.Running? then Sum(pod.containers) else 0
  }

  /** CPU requested by the running pods. */
  function Requested(pods: seq<Pod>): nat {
    if pods == [] then 0 else Requested(pods[..|pods| - 1]) + RunningCpu(pods[|pods| - 1])
  }

  lemma {:induction false} SumAppend(a: seq<Option<nat>>, b: seq<Option<nat>>)
    ensures Sum(a + b) == Sum(a) + Sum(b)
    decreases |b|
  {
    if b == [] {
      assert a + b == a;
    } else {
      var n := |b| - 1;
      assert (a + b)[..|a| + n] == a + b[..n];
      SumAppend(a, b[..n]);
    }
  }

  /** A pod asks for what its containers ask for together, those without a request for nothing. */
  lemma SumOfOne(request: Option<nat>)
    ensures request.Some? ==> Sum([request]) == request.value
    ensures request.None? ==> Sum([request]) == 0
  {
    assert [request][..0] == [];
  }

  lemma {:induction false} RequestedAppend(a: seq<Pod>, b: seq<Pod>)
    ensures Requested(a + b) == Requested(a) + Requested(b)
    decreases |b|
  {
    if b == [] {
      assert a + b == a;
    } else {
      var n := |b| - 1;
      assert (a + b)[..|a| + n] == a + b[..n];
      RequestedAppend(a, b[..n]);
    }
  }

  lemma RequestedOfOne(pod: Pod)
    ensures pod.phase.Running? ==> Requested([pod]) == Sum(pod.containers)
    ensures !pod.phase.Running? ==> Requested([pod]) == 0
  {
    assert [pod][..0] == [];
  }

  predicate Fits(c: Config, used: int) {
    used + c.wsCpu < c.allocatable - c.idle
  }

  /** `v` is the position of a running pod no younger than any running pod, and the first such. */
  predicate IsOldest(pods: seq<Pod>, v: nat) {
    && v < |pods| && pods[v].phase.Running?
    && (forall i | 0 <= i < |pods| && pods[i].phase.Running? :: pods[v].created <= pods[i].created)
    && (forall i | 0 <= i < v && pods[i].phase.Running? :: pods[v].created < pods[i].created)
  }

  predicate NoneRunning(pods: seq<Pod>) {
    forall i | 0 <= i < |pods| :: !pods[i].phase.Running?
  }

  /** Position of the oldest running pod, the first of several. */
  function Oldest(pods: seq<Pod>): (o: Option<nat>)
    ensures o.None? <==> NoneRunning(pods)
    ensures o.Some? ==> IsOldest(pods, o.value)
  {
    if pods == [] then None
    else
      var n := |pods| - 1;
      var o := Oldest(pods[..n]);
      if pods[n].phase.Running? && (o.None? || pods[n].created < pods[o.value].created) then Some(n) else o
  }

  /** Position of the spot pod to preempt: the oldest running one, for a spot request only if old enough. */
  function Victim(c: Config, spot: seq<Pod>, dedicated: bool, now: int): Option<nat> {
    var o := Oldest(spot);
    if o.Some? && (dedicated || spot[o.value].created < now - c.spotAge) then o else None
  }

  /** A victim is missing exactly if no pod runs or, for a spot request, none is old enough; else it is the oldest. */
  lemma VictimSpec(c: Config, spot: seq<Pod>, dedicated: bool, now: int)
    ensures var v := Victim(c, spot, dedicated, now);
            && (v.None? <==>
                  forall i | 0 <= i < |spot| && spot[i].phase.Running? ::
                    !dedicated && spot[i].created >= now - c.spotAge)
            && (v.Some? ==> IsOldest(spot, v.value))
  {
    var o := Oldest(spot);
    if o.Some? {
      assert IsOldest(spot, o.value) && spot[o.value].phase.Running?;
    }
  }

  method TotalRequested(pods: seq<Pod>) returns (total: nat)
    ensures total == Requested(pods)
  {
    total := 0;
    for i := 0 to |pods|
      invariant total == Requested(pods[..i])
    {
      assert pods[..i + 1][..i] == pods[..i];
      if !pods[i].phase.Running? {
        continue;
      }
      var containers := pods[i].containers;
      var before := total;
      for j := 0 to |containers|
        invariant total == before + Sum(containers[..j])
      {
        assert containers[..j + 1][..j] == containers[..j];
        if containers[j].Some? {
          total := total + containers[j].value;
        }
      }
      assert containers[..|containers|] == containers;
    }
    assert pods[..|pods|] == pods;
  }

  method OldestRunning(spot: seq<Pod>) returns (oldest: Option<nat>)
    ensures oldest == Oldest(spot)
    ensures oldest.None? <==> NoneRunning(spot)
    ensures oldest.Some? ==> IsOldest(spot, oldest.value)
  {
    oldest := None;
    for i := 0 to |spot|
      invariant oldest == Oldest(spot[..i])
    {
      assert spot[..i + 1][..i] == spot[..i];
      if spot[i].phase.Running? && (oldest.None? || spot[i].created < spot[oldest.value].created) {
        oldest := Some(i);
      }
    }
    assert spot[..|spot|] == spot;
  }

  /** Whether the request fits, and otherwise the position of the spot pod to preempt, if any. */
  method HasCapacity(c: Config, pods: seq<Pod>, spot: seq<Pod>, dedicated: bool, now: int)
    returns (fits: bool, victim: Option<nat>)
    ensures fits <==> Requested(pods) + c.wsCpu < c.allocatable - c.idle
    ensures fits ==> victim == None
    ensures !fits ==> (victim.None? <==>
                         forall i | 0 <= i < |spot| && spot[i].phase.Running? ::
                           !dedicated && spot[i].created >= now - c.spotAge)
    ensures victim.Some? ==> IsOldest(spot, victim.value)
    ensures fits <==> Fits(c, Requested(pods))
    ensures !fits ==> victim == Victim(c, spot, dedicated, now)
  {
    VictimSpec(c, spot, dedicated, now);
    var total := TotalRequested(pods);
    if total + c.wsCpu < c.allocatable - c.idle {
      return true, None;
    }
    var oldest := OldestRunning(spot);
    if dedicated {
      return false, oldest;
    }
    if oldest.None? {
      return false, None;
    }
    var cutoff := now - c.spotAge;
    if spot[oldest.value].created < cutoff {
      return false, oldest;
    }
    return false, None;
  }

  /******* The cluster and its steps *******/

  /** Where the holder of the lock is. `seen` is the listing of spot pods the victim was chosen from. */
  datatype Stage =
    | Idle
    | Locked(req: Request)
    | Full(req: Request)
    | Chosen(req: Request, victim: Pod, cutoff: int, seen: seq<Pod>)
    | Cleared(req: Request)
    | Waiting(req: Request)

  /** A pod killed by preemption, as it was when killed. */
  datatype Kill = Kill(pod: Pod, dedicated: bool, cutoff: int, seen: seq<Pod>, at: int)

  datatype Cluster = Cluster(pods: seq<Pod>, services: set<string>, leases: map<string, Lease>, now: int,
                             stage: Stage, kills: seq<Kill>)

  /** How the requests of a creation end, and whether the delete that rolls it back takes effect. */
  datatype Answers = Answers(pod: Reply, service: Reply, lease: Reply, rolledBack: bool)

  const ALL_DONE := Answers(Done, Done, Done, true)

  datatype Event =
    | Tick(elapsed: nat)
    | Acquire(req: Request)
    | Count
    | Choose
    | Preempt(reply: Reply)
    | Create(answers: Answers)
    | Scheduled
    | GiveUp
    | PodRuns(name: string)
    | PodEnds(name: string)
    | Dispose(name: string)
    | Reconcile(lease: string, patched: bool, deleted: bool)
    | DeleteLease(name: string)

  predicate Exists(pods: seq<Pod>, name: string) {
    exists i | 0 <= i < |pods| :: pods[i].name == name
  }

  function Drop(pods: seq<Pod>, name: string): seq<Pod> {
    if pods == [] then []
    else Drop(pods[..|pods| - 1], name) + if pods[|pods| - 1].name == name then [] else [pods[|pods| - 1]]
  }

  function SetPhase(pods: seq<Pod>, name: string, from: Phase, to: Phase): seq<Pod> {
    seq(|pods|, i requires 0 <= i < |pods| =>
      if pods[i].name == name && pods[i].phase == from then pods[i].(phase := to) else pods[i])
  }

  function Downgrade(pods: seq<Pod>, lease: Lease): seq<Pod> {
    seq(|pods|, i requires 0 <= i < |pods| =>
      if pods[i].name == lease.pod then pods[i].(kind := Spot, lapsed := Some(lease)) else pods[i])
  }

  /** The label selector. */
  function SpotPods(pods: seq<Pod>): seq<Pod> {
    if pods == [] then []
    else SpotPods(pods[..|pods| - 1]) + if pods[|pods| - 1].kind.Spot? then [pods[|pods| - 1]] else []
  }

  function NewPod(s: Cluster, req: Request): Pod {
    Pod(req.name, if req.dedicated then Dedicated else Spot, Pending, s.now, [Some(POD_CPU)], req.dedicated, None)
  }

  function DoChoose(c: Config, s: Cluster, req: Request): Cluster {
    var spot := SpotPods(s.pods);
    match Victim(c, spot, req.dedicated, s.now)
    case None => s.(stage := Idle)
    case Some(v) => s.(stage := if v < |spot| then Chosen(req, spot[v], s.now - c.spotAge, spot) else Idle)
  }

  function NamedPod(pods: seq<Pod>, name: string): (pod: Pod)
    requires Exists(pods, name)
    ensures pod in pods && pod.name == name
  {
    if pods[|pods| - 1].name == name then pods[|pods| - 1] else NamedPod(pods[..|pods| - 1], name)
  }

  /**
   The victim may be gone by now; then the delete fails and so does the request. It fails, too, when the answer is lost
   and the pod is gone all the same. The service of a killed pod stays.
   */
  function DoPreempt(s: Cluster, reply: Reply): Cluster
    requires s.stage.Chosen?
  {
    var name := s.stage.victim.name;
    if reply.Refused? || !Exists(s.pods, name) then s.(stage := Idle)
    else s.(pods := Drop(s.pods, name), stage := if reply.Done? then Cleared(s.stage.req) else Idle,
            kills := s.kills + [Kill(NamedPod(s.pods, name), s.stage.req.dedicated, s.stage.cutoff, s.stage.seen,
                                     s.now)])
  }

  function Placed(s: Cluster): seq<Pod>
    requires s.stage.Cleared?
  {
    s.pods + [NewPod(s, s.stage.req)]
  }

  /** The lease is kept under the pod's name; one that is there already stays as it is. */
  function Leased(c: Config, s: Cluster, req: Request, reply: Reply): map<string, Lease> {
    if req.dedicated && !reply.Refused? && req.name !in s.leases
    then s.leases[req.name := Lease(req.name, s.now, s.now + c.leaseTime)] else s.leases
  }

  /**
   A pod whose answer is lost stays, without a service. A service that cannot be created, or is left over from an
   earlier pod, or whose answer is lost, makes the creation fail; the new pod is then deleted again.
   */
  function DoCreate(c: Config, s: Cluster, a: Answers): Cluster
    requires s.stage.Cleared?
  {
    var req := s.stage.req;
    if a.pod.Refused? || Exists(s.pods, req.name) then s.(stage := Idle)
    else if a.pod.Lost? then s.(pods := Placed(s), stage := Idle)
    else if a.service.Done? && req.name !in s.services then
      s.(pods := Placed(s), services := s.services + {req.name}, stage := Waiting(req),
         leases := Leased(c, s, req, a.lease))
    else
      s.(pods := if a.rolledBack then s.pods else Placed(s), stage := Idle,
         services := if a.service.Refused? then s.services else s.services + {req.name})
  }

  function DoReconcile(s: Cluster, name: string, patched: bool, deleted: bool): Cluster {
    if name !in s.leases || s.now <= s.leases[name].expiry then s
    else
      var lease := s.leases[name];
      s.(pods := if patched then Downgrade(s.pods, lease) else s.pods,
         leases := if deleted then s.leases - {name} else s.leases)
  }

  predicate Expired(s: Cluster, lease: string) {
    lease in s.leases && s.leases[lease].expiry < s.now
  }

  /** The pod is a spot pod now; its name, phase, age and requests are what they were. */
  predicate TurnedSpot(was: Pod, pod: Pod) {
    && pod.kind.Spot?
    && pod.name == was.name && pod.phase == was.phase && pod.created == was.created && pod.containers == was.containers
    && pod.asDedicated == was.asDedicated
  }

  /** A lease that ran out makes every pod of its name a spot pod and goes; before that nothing changes. */
  lemma ReconcileSpec(s: Cluster, lease: string, patched: bool, deleted: bool)
    ensures var s' := DoReconcile(s, lease, patched, deleted);
            && s' == s.(pods := s'.pods, leases := s'.leases)
            && (!Expired(s, lease) ==> s' == s)
            && (Expired(s, lease) ==>
                  && s'.leases == (if deleted then s.leases - {lease} else s.leases)
                  && |s'.pods| == |s.pods|
                  && forall i | 0 <= i < |s.pods| ::
                       if patched && s.pods[i].name == s.leases[lease].pod then TurnedSpot(s.pods[i], s'.pods[i])
                       else s'.pods[i] == s.pods[i])
  {
  }

  /** Only pods of that name and phase change, and only in their phase. */
  lemma PhaseSpec(pods: seq<Pod>, name: string, from: Phase, to: Phase, i: nat)
    requires i < |pods|
    ensures var after := SetPhase(pods, name, from, to);
            && |after| == |pods| && after[i] == pods[i].(phase := after[i].phase)
            && after[i].phase == if pods[i].name == name && pods[i].phase == from then to else pods[i].phase
  {
  }

  function Step(c: Config, s: Cluster, e: Event): Cluster {
    match e
    case Tick(elapsed) => s.(now := s.now + elapsed)
    case Acquire(req) => if s.stage.Idle? then s.(stage := Locked(req)) else s
    case Count =>
      if !s.stage.Locked? then s
      else s.(stage := if Fits(c, Requested(s.pods)) then Cleared(s.stage.req) else Full(s.stage.req))
    case Choose => if s.stage.Full? then DoChoose(c, s, s.stage.req) else s
    case Preempt(reply) => if s.stage.Chosen? then DoPreempt(s, reply) else s
    case Create(answers) => if s.stage.Cleared? then DoCreate(c, s, answers) else s
    case Scheduled => if s.stage.Waiting? then s.(stage := Idle) else s
    case GiveUp => s.(stage := Idle)
    case PodRuns(name) => s.(pods := SetPhase(s.pods, name, Pending, Running))
    case PodEnds(name) => s.(pods := SetPhase(s.pods, name, Running, Ended))
    case Dispose(name) =>
      if Exists(s.pods, name) then s.(pods := Drop(s.pods, name), services := s.services - {name}) else s
    case Reconcile(lease, patched, deleted) => DoReconcile(s, lease, patched, deleted)
    case DeleteLease(name) => s.(leases := s.leases - {name})
  }

  function Run(c: Config, s: Cluster, es: seq<Event>): Cluster
    decreases |es|
  {
    if es == [] then s else Run(c, Step(c, s, es[0]), es[1..])
  }

  /******* Only spot pods are preempted *******/

  /** A spot pod that was created dedicated had its lease run out. */
  predicate LeaseRanOut(c: Config, pod: Pod, at: int) {
    pod.kind.Spot? && pod.asDedicated ==>
      pod.lapsed.Some? && pod.lapsed.value.pod == pod.name && pod.lapsed.value.since + c.leaseTime < at
  }

  predicate UniqueNames(pods: seq<Pod>) {
    forall i, j | 0 <= i < j < |pods| :: pods[i].name != pods[j].name
  }

  /** Workspace pods carry the workspace request, and leases are for workspace pods only. */
  predicate GoodPods(c: Config, s: Cluster) {
    && UniqueNames(s.pods)
    && (forall p | p in s.pods :: LeaseRanOut(c, p, s.now))
    && (forall p | p in s.pods && !p.kind.System? :: Sum(p.containers) == POD_CPU)
    && (forall l | l in s.leases :: s.leases[l].expiry == s.leases[l].since + c.leaseTime)
    && (forall p | p in s.pods && p.kind.System? :: forall l | l in s.leases :: s.leases[l].pod != p.name)
  }

  /** What held of a victim when it was chosen. */
  predicate ChosenRight(dedicated: bool, pod: Pod, cutoff: int, seen: seq<Pod>) {
    && (exists q | q in seen :: q.phase.Running? && q.name == pod.name && q.created == pod.created)
    && (forall q | q in seen :: q.kind.Spot? && (q.phase.Running? ==> pod.created <= q.created))
    && (!dedicated ==> pod.created < cutoff)
  }

  predicate GoodStage(c: Config, s: Cluster) {
    s.stage.Chosen? ==>
      && s.stage.cutoff <= s.now - c.spotAge
      && ChosenRight(s.stage.req.dedicated, s.stage.victim, s.stage.cutoff, s.stage.seen)
      && (forall p | p in s.pods && p.name == s.stage.victim.name ::
            p.kind.Spot? && p.created == s.stage.victim.created)
  }

  predicate GoodKill(c: Config, k: Kill) {
    && k.cutoff <= k.at - c.spotAge
    && k.pod.kind.Spot? && LeaseRanOut(c, k.pod, k.at)
    && ChosenRight(k.dedicated, k.pod, k.cutoff, k.seen)
  }

  predicate Safe(c: Config, s: Cluster) {
    GoodPods(c, s) && GoodStage(c, s) && forall k | k in s.kills :: GoodKill(c, k)
  }

  lemma DropCases(pods: seq<Pod>, name: string)
    requires pods != []
    ensures var n := |pods| - 1;
            Drop(pods, name) ==
            if pods[n].name == name then Drop(pods[..n], name) else Drop(pods[..n], name) + [pods[n]]
  {
  }

  lemma {:induction false} DropHolds(pods: seq<Pod>, name: string)
    ensures forall p :: p in Drop(pods, name) <==> p in pods && p.name != name
    decreases |pods|
  {
    if pods != [] {
      var n := |pods| - 1;
      DropHolds(pods[..n], name);
      DropCases(pods, name);
      assert pods == pods[..n] + [pods[n]];
    }
  }

  lemma UniqueMore(pods: seq<Pod>, pod: Pod)
    requires UniqueNames(pods) && forall p | p in pods :: p.name != pod.name
    ensures UniqueNames(pods + [pod])
  {
  }

  lemma UniqueFront(pods: seq<Pod>)
    requires pods != [] && UniqueNames(pods)
    ensures UniqueNames(pods[..|pods| - 1])
    ensures forall p | p in pods[..|pods| - 1] :: p.name != pods[|pods| - 1].name
  {
  }

  lemma {:induction false} DropSpec(pods: seq<Pod>, name: string)
    ensures forall p :: p in Drop(pods, name) <==> p in pods && p.name != name
    ensures UniqueNames(pods) ==> UniqueNames(Drop(pods, name))
    decreases |pods|
  {
    DropHolds(pods, name);
    if pods != [] && UniqueNames(pods) {
      var n := |pods| - 1;
      DropSpec(pods[..n], name);
      DropCases(pods, name);
      UniqueFront(pods);
      if pods[n].name != name {
        UniqueMore(Drop(pods[..n], name), pods[n]);
      }
    }
  }

  lemma {:induction false} SpotSpec(pods: seq<Pod>)
    ensures forall p :: p in SpotPods(pods) <==> p in pods && p.kind.Spot?
  {
    if pods != [] {
      SpotSpec(pods[..|pods| - 1]);
      assert pods == pods[..|pods| - 1] + [pods[|pods| - 1]];
    }
  }

  lemma SameName(pods: seq<Pod>, p: Pod, q: Pod)
    requires UniqueNames(pods) && p in pods && q in pods && p.name == q.name
    ensures p == q
  {
  }

  lemma ChooseIsSafe(c: Config, s: Cluster)
    requires Safe(c, s) && s.stage.Full?
    ensures Safe(c, DoChoose(c, s, s.stage.req))
  {
    var spot, req := SpotPods(s.pods), s.stage.req;
    SpotSpec(s.pods);
    var v := Victim(c, spot, req.dedicated, s.now);
    if v.Some? {
      var victim := spot[v.value];
      assert victim in spot;
      forall p | p in s.pods && p.name == victim.name ensures p == victim { SameName(s.pods, p, victim); }
    }
  }

  lemma PreemptIsSafe(c: Config, s: Cluster, reply: Reply)
    requires Safe(c, s) && s.stage.Chosen?
    ensures Safe(c, DoPreempt(s, reply))
  {
    DropSpec(s.pods, s.stage.victim.name);
  }

  lemma PlacedIsGood(s: Cluster)
    requires s.stage.Cleared? && !Exists(s.pods, s.stage.req.name) && UniqueNames(s.pods)
    ensures UniqueNames(Placed(s))
    ensures forall p | p in Placed(s) :: p in s.pods || p == NewPod(s, s.stage.req)
    ensures forall p | p in s.pods :: p.name != s.stage.req.name
    ensures Sum(NewPod(s, s.stage.req).containers) == POD_CPU
  {
    assert NewPod(s, s.stage.req).containers[..0] == [];
  }

  /** Adding the new pod, with or without its lease. */
  lemma PlacedIsSafe(c: Config, s: Cluster, s': Cluster)
    requires Safe(c, s) && s.stage.Cleared? && !Exists(s.pods, s.stage.req.name)
    requires s'.pods == Placed(s) && s'.now == s.now && s'.kills == s.kills && !s'.stage.Chosen?
    requires s'.leases == s.leases || s'.leases == Leased(c, s, s.stage.req, Done)
    ensures Safe(c, s')
  {
    PlacedIsGood(s);
    var pod := NewPod(s, s.stage.req);
    assert LeaseRanOut(c, pod, s.now);
    forall p | p in s'.pods ensures LeaseRanOut(c, p, s'.now) { assert p in s.pods ==> LeaseRanOut(c, p, s.now); }
  }

  lemma CreateIsSafe(c: Config, s: Cluster, a: Answers)
    requires Safe(c, s) && s.stage.Cleared?
    ensures Safe(c, DoCreate(c, s, a))
  {
    var s' := DoCreate(c, s, a);
    if s'.pods != s.pods {
      PlacedIsSafe(c, s, s');
    } else {
      assert s'.kills == s.kills && s'.now == s.now && s'.leases == s.leases && !s'.stage.Chosen?;
    }
  }

  /** Pods changed in place keep their names, creation times and requests, and never leave spot. */
  predicate Evolves(pods: seq<Pod>, after: seq<Pod>) {
    && |after| == |pods|
    && forall i | 0 <= i < |pods| ::
         && after[i].name == pods[i].name && after[i].created == pods[i].created
         && after[i].containers == pods[i].containers && after[i].asDedicated == pods[i].asDedicated
         && (pods[i].kind.Spot? ==> after[i].kind.Spot?)
         && (after[i].kind == pods[i].kind || after[i].kind.Spot?)
  }

  lemma EvolvingIsSafe(c: Config, s: Cluster, s': Cluster)
    requires Safe(c, s) && Evolves(s.pods, s'.pods) && s'.stage == s.stage && s'.kills == s.kills && s'.now == s.now
    requires s'.leases.Keys <= s.leases.Keys && forall l | l in s'.leases :: s'.leases[l] == s.leases[l]
    requires forall i | 0 <= i < |s.pods| :: LeaseRanOut(c, s'.pods[i], s.now)
    requires forall i | 0 <= i < |s.pods| && s.pods[i].kind.System? :: s'.pods[i].kind.System?
    ensures Safe(c, s')
  {
    forall p | p in s'.pods ensures exists q | q in s.pods ::
        q.name == p.name && q.created == p.created && q.containers == p.containers && (q.kind.Spot? ==> p.kind.Spot?)
        && (q.kind.System? <==> p.kind.System?)
    {
      var i :| 0 <= i < |s'.pods| && s'.pods[i] == p;
      assert s.pods[i] in s.pods;
    }
  }

  lemma ReconcileIsSafe(c: Config, s: Cluster, lease: string, patched: bool, deleted: bool)
    requires Safe(c, s)
    ensures Safe(c, DoReconcile(s, lease, patched, deleted))
  {
    EvolvingIsSafe(c, s, DoReconcile(s, lease, patched, deleted));
  }

  lemma PhaseIsSafe(c: Config, s: Cluster, name: string, from: Phase, to: Phase)
    requires Safe(c, s)
    ensures Safe(c, s.(pods := SetPhase(s.pods, name, from, to)))
  {
    var after := SetPhase(s.pods, name, from, to);
    forall i | 0 <= i < |s.pods| ensures LeaseRanOut(c, after[i], s.now) {
      assert LeaseRanOut(c, s.pods[i], s.now);
    }
    EvolvingIsSafe(c, s, s.(pods := after));
  }

  lemma DisposeIsSafe(c: Config, s: Cluster, name: string)
    requires Safe(c, s)
    ensures Safe(c, s.(pods := Drop(s.pods, name), services := s.services - {name}))
  {
    DropSpec(s.pods, name);
  }

  lemma StepIsSafe(c: Config, s: Cluster, e: Event)
    requires Safe(c, s)
    ensures Safe(c, Step(c, s, e))
  {
    match e {
      case Choose => if s.stage.Full? { ChooseIsSafe(c, s); }
      case Preempt(reply) => if s.stage.Chosen? { PreemptIsSafe(c, s, reply); }
      case Create(answers) => if s.stage.Cleared? { CreateIsSafe(c, s, answers); }
      case Dispose(name) => DisposeIsSafe(c, s, name);
      case Reconcile(lease, patched, deleted) => ReconcileIsSafe(c, s, lease, patched, deleted);
      case PodRuns(name) => PhaseIsSafe(c, s, name, Pending, Running);
      case PodEnds(name) => PhaseIsSafe(c, s, name, Running, Ended);
      case _ => PlainStepIsSafe(c, s, e);
    }
  }

  /** Steps that touch no pod. */
  lemma PlainStepIsSafe(c: Config, s: Cluster, e: Event)
    requires Safe(c, s)
    requires e.Tick? || e.Acquire? || e.Count? || e.Scheduled? || e.GiveUp? || e.DeleteLease?
    ensures Safe(c, Step(c, s, e))
  {
    var s' := Step(c, s, e);
    assert s'.pods == s.pods && s'.kills == s.kills && s'.now >= s.now;
    forall p | p in s.pods ensures LeaseRanOut(c, p, s'.now) { assert LeaseRanOut(c, p, s.now); }
  }

  lemma {:induction false} SafeOverRuns(c: Config, s: Cluster, es: seq<Event>)
    requires Safe(c, s)
    ensures Safe(c, Run(c, s, es))
    decreases |es|
  {
    if es != [] {
      StepIsSafe(c, s, es[0]);
      SafeOverRuns(c, Step(c, s, es[0]), es[1..]);
    }
  }

  /**
   In every interleaving, a preempted pod is a spot pod when killed; created dedicated, its lease had run out; it is
   the oldest running one of the spot pods listed; and for a spot request it is older than the configured age.
   */
  lemma OnlySpotPodsArePreempted(c: Config, s: Cluster, es: seq<Event>, k: Kill)
    requires Safe(c, s) && k in Run(c, s, es).kills
    ensures k.pod.kind.Spot?
    ensures k.pod.asDedicated ==>
              && k.pod.lapsed.Some? && k.pod.lapsed.value.pod == k.pod.name
              && k.pod.lapsed.value.since + c.leaseTime < k.at
    ensures exists q | q in k.seen :: q.phase.Running? && q.name == k.pod.name && q.created == k.pod.created
    ensures forall q | q in k.seen && q.phase.Running? :: k.pod.created <= q.created
    ensures !k.dedicated ==> k.pod.created < k.at - c.spotAge
  {
    SafeOverRuns(c, s, es);
    assert GoodKill(c, k);
  }

  /******* CPU is not overcommitted *******/

  function CommittedCpu(pod: Pod): nat {
    if pod.phase.Ended? then 0 else Sum(pod.containers)
  }

  /** CPU requested by the pods that run or will run. */
  function Committed(pods: seq<Pod>): nat {
    if pods == [] then 0 else Committed(pods[..|pods| - 1]) + CommittedCpu(pods[|pods| - 1])
  }

  /** What admission may reach: the pod asks for `POD_CPU` where the check counts `wsCpu`. */
  function Bound(c: Config): int {
    c.allocatable - c.idle + (POD_CPU - c.wsCpu)
  }

  predicate Bounded(c: Config, s: Cluster) {
    Committed(s.pods) < Bound(c)
  }

  /** The step leaves a new pod behind, whether the request is told so or not. */
  predicate Adds(s: Cluster, e: Event) {
    && s.stage.Cleared? && e.Create? && !Exists(s.pods, s.stage.req.name)
    && (|| e.answers.pod.Lost?
        || (e.answers.pod.Done? &&
            (!e.answers.rolledBack || (e.answers.service.Done? && s.stage.req.name !in s.services))))
  }

  /** A new pod for which there is no room. */
  predicate Overfills(c: Config, s: Cluster, e: Event) {
    Adds(s, e) && Committed(s.pods) + POD_CPU >= Bound(c)
  }

  lemma {:induction false} RunningIsCommitted(pods: seq<Pod>)
    ensures Requested(pods) <= Committed(pods)
    ensures (forall p | p in pods :: !p.phase.Pending?) ==> Requested(pods) == Committed(pods)
  {
    if pods != [] {
      RunningIsCommitted(pods[..|pods| - 1]);
    }
  }

  /** Pods that commit no more than before, name by name, commit no more in total, whatever name is left out. */
  lemma {:induction false} Shrinks(pods: seq<Pod>, after: seq<Pod>, name: string)
    requires |after| == |pods|
    requires forall i | 0 <= i < |pods| ::
               after[i].name == pods[i].name && CommittedCpu(after[i]) <= CommittedCpu(pods[i])
    ensures Committed(after) <= Committed(pods)
    ensures Committed(Drop(after, name)) <= Committed(Drop(pods, name))
  {
    if pods != [] {
      var n := |pods| - 1;
      Shrinks(pods[..n], after[..n], name);
      DropLast(pods, name);
      DropLast(after, name);
    }
  }

  lemma DropLast(pods: seq<Pod>, name: string)
    requires pods != []
    ensures Committed(Drop(pods, name)) == Committed(Drop(pods[..|pods| - 1], name)) +
            if pods[|pods| - 1].name == name then 0 else CommittedCpu(pods[|pods| - 1])
  {
    var n := |pods| - 1;
    if pods[n].name == name {
      assert Drop(pods, name) == Drop(pods[..n], name);
    } else {
      assert Drop(pods, name)[..|Drop(pods, name)| - 1] == Drop(pods[..n], name);
    }
  }

  lemma {:induction false} DropCommits(pods: seq<Pod>, name: string)
    ensures Committed(Drop(pods, name)) <= Committed(pods)
  {
    if pods != [] {
      DropLast(pods, name);
      DropCommits(pods[..|pods| - 1], name);
    }
  }

  lemma {:induction false} DropAbsent(pods: seq<Pod>, name: string)
    requires forall i | 0 <= i < |pods| :: pods[i].name != name
    ensures Drop(pods, name) == pods
  {
    if pods != [] {
      var n := |pods| - 1;
      DropAbsent(pods[..n], name);
      DropCases(pods, name);
      assert pods == pods[..n] + [pods[n]];
    }
  }

  /** Removing one pod gives back exactly what it commits. */
  lemma {:induction false} DropGivesBack(pods: seq<Pod>, i: nat)
    requires UniqueNames(pods) && i < |pods|
    ensures Committed(Drop(pods, pods[i].name)) + CommittedCpu(pods[i]) == Committed(pods)
  {
    var n := |pods| - 1;
    DropLast(pods, pods[i].name);
    if i == n {
      DropAbsent(pods[..n], pods[n].name);
    } else {
      DropGivesBack(pods[..n], i);
    }
  }

  lemma {:induction false} DropTwice(pods: seq<Pod>, a: string, b: string)
    ensures Committed(Drop(Drop(pods, a), b)) <= Committed(Drop(pods, b))
  {
    if pods != [] {
      var n := |pods| - 1;
      DropTwice(pods[..n], a, b);
      DropLast(pods, b);
      if pods[n].name == a {
        assert Drop(pods, a) == Drop(pods[..n], a);
      } else {
        DropLast(Drop(pods, a), b);
        assert Drop(pods, a)[..|Drop(pods, a)| - 1] == Drop(pods[..n], a);
      }
    }
  }

  lemma PlacedCommits(s: Cluster)
    requires s.stage.Cleared?
    ensures Committed(Placed(s)) == Committed(s.pods) + POD_CPU
  {
    var pod := NewPod(s, s.stage.req);
    assert Sum(pod.containers) == POD_CPU by { assert pod.containers[..0] == []; }
    assert Placed(s)[..|s.pods|] == s.pods && Placed(s)[|s.pods|] == pod;
  }

  lemma CreateCommits(c: Config, s: Cluster, a: Answers)
    requires s.stage.Cleared?
    ensures Committed(DoCreate(c, s, a).pods) == Committed(s.pods) + if Adds(s, Create(a)) then POD_CPU else 0
  {
    PlacedCommits(s);
  }

  lemma PhaseCommitsNoMore(pods: seq<Pod>, n: string, from: Phase, to: Phase, name: string)
    requires !from.Ended?
    ensures Committed(SetPhase(pods, n, from, to)) <= Committed(pods)
    ensures Committed(Drop(SetPhase(pods, n, from, to), name)) <= Committed(Drop(pods, name))
  {
    var after := SetPhase(pods, n, from, to);
    forall i | 0 <= i < |pods|
      ensures after[i].name == pods[i].name && CommittedCpu(after[i]) <= CommittedCpu(pods[i])
    {
    }
    Shrinks(pods, after, name);
  }

  lemma ReconcileCommitsNoMore(s: Cluster, lease: string, patched: bool, deleted: bool, name: string)
    ensures Committed(DoReconcile(s, lease, patched, deleted).pods) <= Committed(s.pods)
    ensures Committed(Drop(DoReconcile(s, lease, patched, deleted).pods, name)) <= Committed(Drop(s.pods, name))
  {
    if lease in s.leases {
      var after := Downgrade(s.pods, s.leases[lease]);
      forall i | 0 <= i < |s.pods|
        ensures after[i].name == s.pods[i].name && CommittedCpu(after[i]) <= CommittedCpu(s.pods[i])
      {
      }
      Shrinks(s.pods, after, name);
    }
  }

  lemma PodsStay(c: Config, s: Cluster, e: Event)
    requires e.Tick? || e.Acquire? || e.Count? || e.Choose? || e.Scheduled? || e.GiveUp? || e.DeleteLease?
    ensures Step(c, s, e).pods == s.pods
  {
  }

  /** One step breaks the bound exactly when it adds a pod for which there is no room. */
  lemma StepKeepsBound(c: Config, s: Cluster, e: Event)
    requires Bounded(c, s)
    ensures Bounded(c, Step(c, s, e)) <==> !Overfills(c, s, e)
  {
    match e {
      case Create(a) => if s.stage.Cleared? { CreateCommits(c, s, a); }
      case PodRuns(n) => PhaseCommitsNoMore(s.pods, n, Pending, Running, "");
      case PodEnds(n) => PhaseCommitsNoMore(s.pods, n, Running, Ended, "");
      case Reconcile(lease, patched, deleted) => ReconcileCommitsNoMore(s, lease, patched, deleted, "");
      case Dispose(n) => DropCommits(s.pods, n);
      case Preempt(_) => if s.stage.Chosen? { DropCommits(s.pods, s.stage.victim.name); }
      case _ => PodsStay(c, s, e);
    }
  }

  predicate BoundedAlong(c: Config, s: Cluster, es: seq<Event>)
    decreases |es|
  {
    Bounded(c, s) && (es != [] ==> BoundedAlong(c, Step(c, s, es[0]), es[1..]))
  }

  predicate NeverOverfills(c: Config, s: Cluster, es: seq<Event>)
    decreases |es|
  {
    es != [] ==> !Overfills(c, s, es[0]) && NeverOverfills(c, Step(c, s, es[0]), es[1..])
  }

  /**
   Over every interleaving, the bound holds throughout exactly when no creation adds a pod for which there is no
   room.
   */
  lemma {:induction false} BoundOverRuns(c: Config, s: Cluster, es: seq<Event>)
    requires Bounded(c, s)
    ensures BoundedAlong(c, s, es) <==> NeverOverfills(c, s, es)
    decreases |es|
  {
    if es != [] {
      StepKeepsBound(c, s, es[0]);
      if Bounded(c, Step(c, s, es[0])) {
        BoundOverRuns(c, Step(c, s, es[0]), es[1..]);
      }
    }
  }

  /******* What the check has to count *******/

  /** The check counts running pods only; counting the pending ones too must not change a positive verdict. */
  predicate Allowed(c: Config, s: Cluster, e: Event) {
    e.Count? && s.stage.Locked? && Fits(c, Requested(s.pods)) ==> Fits(c, Committed(s.pods))
  }

  /** Within the bound, with room for the new pod once the holder of the lock has cleared its way. */
  predicate Within(c: Config, s: Cluster) {
    && Bounded(c, s)
    && (s.stage.Cleared? ==> Committed(s.pods) + POD_CPU < Bound(c))
    && (s.stage.Chosen? ==> Committed(Drop(s.pods, s.stage.victim.name)) + POD_CPU < Bound(c))
  }

  lemma ChooseStaysWithin(c: Config, s: Cluster)
    requires Safe(c, s) && Within(c, s) && s.stage.Full?
    ensures Within(c, DoChoose(c, s, s.stage.req))
  {
    var spot := SpotPods(s.pods);
    SpotSpec(s.pods);
    var v := Victim(c, spot, s.stage.req.dedicated, s.now);
    if v.Some? {
      var victim := spot[v.value];
      assert victim in spot && victim in s.pods;
      var i :| 0 <= i < |s.pods| && s.pods[i] == victim;
      DropGivesBack(s.pods, i);
    }
  }

  lemma DisposeStaysWithin(c: Config, s: Cluster, name: string)
    requires Within(c, s)
    ensures Within(c, s.(pods := Drop(s.pods, name), services := s.services - {name}))
  {
    DropCommits(s.pods, name);
    DropTwice(s.pods, name, if s.stage.Chosen? then s.stage.victim.name else "");
  }

  lemma PreemptStaysWithin(c: Config, s: Cluster, reply: Reply)
    requires Within(c, s) && s.stage.Chosen?
    ensures Within(c, DoPreempt(s, reply))
  {
    DropCommits(s.pods, s.stage.victim.name);
  }

  lemma CreateStaysWithin(c: Config, s: Cluster, a: Answers)
    requires Within(c, s) && s.stage.Cleared?
    ensures Within(c, DoCreate(c, s, a))
  {
    CreateCommits(c, s, a);
  }

  lemma PhaseStaysWithin(c: Config, s: Cluster, n: string, from: Phase, to: Phase)
    requires Within(c, s) && !from.Ended?
    ensures Within(c, s.(pods := SetPhase(s.pods, n, from, to)))
  {
    PhaseCommitsNoMore(s.pods, n, from, to, if s.stage.Chosen? then s.stage.victim.name else "");
  }

  lemma ReconcileStaysWithin(c: Config, s: Cluster, lease: string, patched: bool, deleted: bool)
    requires Within(c, s)
    ensures Within(c, DoReconcile(s, lease, patched, deleted))
  {
    ReconcileCommitsNoMore(s, lease, patched, deleted, if s.stage.Chosen? then s.stage.victim.name else "");
  }

  lemma CountStaysWithin(c: Config, s: Cluster)
    requires Within(c, s) && Allowed(c, s, Count)
    ensures Within(c, Step(c, s, Count))
  {
  }

  lemma StepStaysWithin(c: Config, s: Cluster, e: Event)
    requires Safe(c, s) && Within(c, s) && Allowed(c, s, e)
    ensures Within(c, Step(c, s, e))
  {
    match e {
      case Count => CountStaysWithin(c, s);
      case Choose => if s.stage.Full? { ChooseStaysWithin(c, s); }
      case Preempt(reply) => if s.stage.Chosen? { PreemptStaysWithin(c, s, reply); }
      case Create(a) => if s.stage.Cleared? { CreateStaysWithin(c, s, a); }
      case Dispose(name) => DisposeStaysWithin(c, s, name);
      case PodRuns(name) => PhaseStaysWithin(c, s, name, Pending, Running);
      case PodEnds(name) => PhaseStaysWithin(c, s, name, Running, Ended);
      case Reconcile(lease, patched, deleted) => ReconcileStaysWithin(c, s, lease, patched, deleted);
      case _ =>
    }
  }

  predicate AllowedAlong(c: Config, s: Cluster, es: seq<Event>)
    decreases |es|
  {
    es != [] ==> Allowed(c, s, es[0]) && AllowedAlong(c, Step(c, s, es[0]), es[1..])
  }

  /** Over every interleaving, if no check ignores pending pods that leave no room, the bound holds throughout. */
  lemma {:induction false} FullCountKeepsBound(c: Config, s: Cluster, es: seq<Event>)
    requires Safe(c, s) && Within(c, s) && AllowedAlong(c, s, es)
    ensures BoundedAlong(c, s, es) && Within(c, Run(c, s, es))
    decreases |es|
  {
    if es != [] {
      StepIsSafe(c, s, es[0]);
      StepStaysWithin(c, s, es[0]);
      FullCountKeepsBound(c, Step(c, s, es[0]), es[1..]);
    }
  }

  /**
   A check that lets a new workspace through is right, if the pod is created at once, exactly when the full count
   lets it through.
   */
  lemma CheckIsRightIff(c: Config, s: Cluster, req: Request)
    requires s.stage == Locked(req) && Fits(c, Requested(s.pods)) && Bounded(c, s)
    requires !Exists(s.pods, req.name) && req.name !in s.services
    ensures Bounded(c, Step(c, Step(c, s, Count), Create(ALL_DONE))) <==> Allowed(c, s, Count)
  {
    var s1 := Step(c, s, Count);
    StepKeepsBound(c, s1, Create(ALL_DONE));
  }

  /**
   When the idle reserve covers the difference between request and count, running pods ask for less than the node
   has.
   */
  lemma NodeNotOvercommitted(c: Config, s: Cluster, es: seq<Event>)
    requires Safe(c, s) && Within(c, s) && AllowedAlong(c, s, es)
    requires c.idle >= POD_CPU - c.wsCpu
    ensures Requested(Run(c, s, es).pods) < c.allocatable
  {
    FullCountKeepsBound(c, s, es);
    RunningIsCommitted(Run(c, s, es).pods);
  }

  /** With no pod pending at the check, every check is allowed. */
  lemma NothingPendingIsAllowed(c: Config, s: Cluster, e: Event)
    requires e.Count? ==> forall p | p in s.pods :: !p.phase.Pending?
    ensures Allowed(c, s, e)
  {
    RunningIsCommitted(s.pods);
  }

  /******* A run that overfills the node *******/

  const EMPTY := Cluster([], {}, map[], 0, Idle, [])

  lemma {:induction false} Extend(c: Config, s: Cluster, es: seq<Event>, e: Event)
    ensures Run(c, s, es + [e]) == Step(c, Run(c, s, es), e)
    decreases |es|
  {
    if es == [] {
      assert es + [e] == [e] && [e][1..] == [];
    } else {
      assert (es + [e])[0] == es[0] && (es + [e])[1..] == es[1..] + [e];
      Extend(c, Step(c, s, es[0]), es[1..], e);
    }
  }

  /** A request that passes the check and gets its pod; the pod is still pending. */
  lemma Admitted(c: Config, es: seq<Event>, name: string) returns (more: seq<Event>)
    requires var s := Run(c, EMPTY, es); s.stage.Idle? && !Exists(s.pods, name) && name !in s.services
    requires Fits(c, Requested(Run(c, EMPTY, es).pods))
    ensures var s, s' := Run(c, EMPTY, es), Run(c, EMPTY, more);
            && s'.stage.Idle? && s'.now == s.now && s'.kills == s.kills
            && |s'.pods| == |s.pods| + 1 && s'.pods[..|s.pods|] == s.pods
            && s'.pods[|s.pods|] == Pod(name, Spot, Pending, s.now, [Some(POD_CPU)], false, None)
            && s'.services == s.services + {name}
            && Committed(s'.pods) == Committed(s.pods) + POD_CPU
  {
    var req := Request(name, false);
    Extend(c, EMPTY, es, Acquire(req));
    more := es + [Acquire(req)];
    Extend(c, EMPTY, more, Count);
    more := more + [Count];
    assert Run(c, EMPTY, more) == Run(c, EMPTY, es).(stage := Cleared(req));
    PlacedCommits(Run(c, EMPTY, more));
    Extend(c, EMPTY, more, Create(ALL_DONE));
    more := more + [Create(ALL_DONE)];
    Extend(c, EMPTY, more, Scheduled);
    more := more + [Scheduled];
  }

  /** On a node with room for one workspace, a second one is admitted while the first is pending. */
  lemma PendingPodOverfills(c: Config) returns (es: seq<Event>)
    requires c.wsCpu < c.allocatable - c.idle <= c.wsCpu + POD_CPU
    ensures Bounded(c, EMPTY) && !Bounded(c, Run(c, EMPTY, es))
  {
    es := [];
    es := Admitted(c, es, "a");
    var s := Run(c, EMPTY, es);
    assert s.pods[..0] == [] && Requested(s.pods) == 0;
    assert "a"[0] != "b"[0];
    es := Admitted(c, es, "b");
  }

  /******* How pods go, and who holds the lock *******/

  lemma PreemptRecords(s: Cluster, reply: Reply, p: Pod)
    requires s.stage.Chosen? && UniqueNames(s.pods) && p in s.pods
    ensures var s' := DoPreempt(s, reply);
            p in s'.pods || exists k | k in s'.kills :: k.pod == p && k.at == s.now
  {
    var s' := DoPreempt(s, reply);
    DropHolds(s.pods, s.stage.victim.name);
    if p.name == s.stage.victim.name && !reply.Refused? {
      assert Exists(s.pods, p.name);
      SameName(s.pods, p, NamedPod(s.pods, p.name));
      assert s'.kills[|s.kills|].pod == p;
    }
  }

  /** Whatever happens, a pod stays unless it is disposed of or its preemption is recorded. */
  lemma PodGoesOnlySo(c: Config, s: Cluster, e: Event, p: Pod)
    requires UniqueNames(s.pods) && p in s.pods
    ensures || Exists(Step(c, s, e).pods, p.name)
            || e == Dispose(p.name)
            || (e.Preempt? && exists k | k in Step(c, s, e).kills :: k.pod == p && k.at == s.now)
  {
    var s' := Step(c, s, e);
    var i :| 0 <= i < |s.pods| && s.pods[i] == p;
    match e {
      case Dispose(name) =>
        DropHolds(s.pods, name);
        assert name != p.name ==> p in s'.pods;
      case Preempt(reply) => if s.stage.Chosen? { PreemptRecords(s, reply, p); }
      case _ => assert s'.pods[i].name == p.name;
    }
  }

  /** Disposing takes pod and service together and leaves every other workspace alone; without a pod nothing happens. */
  lemma DisposeTakesBoth(c: Config, s: Cluster, name: string)
    ensures var s' := Step(c, s, Dispose(name));
            && !Exists(s'.pods, name) && (Exists(s.pods, name) ==> s'.services == s.services - {name})
            && (!Exists(s.pods, name) ==> s' == s)
            && (forall p: Pod | p.name != name :: p in s'.pods <==> p in s.pods)
            && s' == s.(pods := s'.pods, services := s'.services)
  {
    DropGone(s.pods, name, name);
    DropHolds(s.pods, name);
  }

  /** A pod that started is not pending any more, and one that ended does not run; either may change nothing else. */
  lemma PodsStartAndEnd(c: Config, s: Cluster, name: string, p: Pod)
    requires p.name == name
    ensures var s' := Step(c, s, PodRuns(name)); p in s'.pods ==> !p.phase.Pending?
    ensures var s' := Step(c, s, PodEnds(name)); p in s'.pods ==> !p.phase.Running?
    ensures Step(c, s, PodRuns(name)) == s.(pods := Step(c, s, PodRuns(name)).pods)
    ensures Step(c, s, PodEnds(name)) == s.(pods := Step(c, s, PodEnds(name)).pods)
  {
  }

  function Holder(stage: Stage): Option<Request> {
    if stage.Idle? then None else Some(stage.req)
  }

  /** The lock passes from one request to another only by being free in between. */
  lemma LockIsExclusive(c: Config, s: Cluster, e: Event)
    requires Holder(s.stage).Some?
    ensures Holder(Step(c, s, e).stage).None? || Holder(Step(c, s, e).stage) == Holder(s.stage)
  {
  }

  /** How many steps of its own the holder of the lock has at most to go. */
  function ToGo(stage: Stage): nat {
    match stage
    case Idle => 0
    case Waiting(_) => 1
    case Cleared(_) => 2
    case Chosen(_, _, _, _) => 3
    case Full(_) => 4
    case Locked(_) => 5
  }

  /** The event is the next step of the holder of the lock. */
  predicate Own(s: Cluster, e: Event) {
    match s.stage
    case Idle => false
    case Locked(_) => e.Count?
    case Full(_) => e.Choose?
    case Chosen(_, _, _, _) => e.Preempt?
    case Cleared(_) => e.Create?
    case Waiting(_) => e.Scheduled? || e.GiveUp?
  }

  lemma OwnStepGoesOn(c: Config, s: Cluster, e: Event)
    requires !s.stage.Idle?
    ensures ToGo(Step(c, s, e).stage) <= ToGo(s.stage) - if Own(s, e) then 1 else 0
    ensures Own(s, e) || e.GiveUp? || Step(c, s, e).stage == s.stage
  {
  }

  predicate HeldAlong(c: Config, s: Cluster, es: seq<Event>)
    decreases |es|
  {
    !s.stage.Idle? && (es == [] || HeldAlong(c, Step(c, s, es[0]), es[1..]))
  }

  function OwnSteps(c: Config, s: Cluster, es: seq<Event>): nat
    decreases |es|
  {
    if es == [] then 0 else (if Own(s, es[0]) then 1 else 0) + OwnSteps(c, Step(c, s, es[0]), es[1..])
  }

  /** However a request ends, it lets go of the lock: nobody holds it for five steps of their own. */
  lemma {:induction false} LockIsReleased(c: Config, s: Cluster, es: seq<Event>)
    requires HeldAlong(c, s, es)
    ensures OwnSteps(c, s, es) < ToGo(s.stage) <= 5
    decreases |es|
  {
    if es != [] {
      OwnStepGoesOn(c, s, es[0]);
      LockIsReleased(c, Step(c, s, es[0]), es[1..]);
    }
  }

  /** The request goes on exactly if the delete of the chosen pod was done; unless it was refused, the pod is gone. */
  lemma PreemptOutcome(c: Config, s: Cluster, reply: Reply)
    requires s.stage.Chosen?
    ensures var name := s.stage.victim.name;
            var s' := Step(c, s, Preempt(reply));
            && (s'.stage == Cleared(s.stage.req) <==> reply.Done? && Exists(s.pods, name))
            && (s'.stage.Cleared? || s'.stage.Idle?)
            && (Exists(s'.pods, name) <==> Exists(s.pods, name) && reply.Refused?)
            && (reply.Refused? ==> s'.pods == s.pods && s'.kills == s.kills)
            && s'.services == s.services && s'.leases == s.leases
  {
    DropSpec(s.pods, s.stage.victim.name);
  }

  /**
   A creation succeeds exactly if pod and service were created and neither was there; then the workspace has both, and a
   lease if it is dedicated and that was not refused. A failed one grants no lease, and leaves a pod behind exactly if
   its own answer was lost or it was not rolled back, and a service exactly if that was not refused.
   */
  lemma CreateOutcome(c: Config, s: Cluster, a: Answers)
    requires s.stage.Cleared?
    ensures var req := s.stage.req;
            var s' := Step(c, s, Create(a));
            var free := !Exists(s.pods, req.name);
            var done := free && a.pod.Done? && a.service.Done? && req.name !in s.services;
            && s'.stage == (if done then Waiting(req) else Idle)
            && (Exists(s'.pods, req.name) <==>
                  done || !free || a.pod.Lost? || (a.pod.Done? && !a.rolledBack))
            && s'.services ==
               (if free && a.pod.Done? && !a.service.Refused? then s.services + {req.name} else s.services)
            && (done && req.dedicated && !a.lease.Refused? ==> req.name in s'.leases)
            && (!done || !req.dedicated || a.lease.Refused? || req.name in s.leases ==> s'.leases == s.leases)
            && s'.kills == s.kills && s.pods <= s'.pods
  {
    assert Placed(s)[|s.pods|].name == s.stage.req.name;
  }

  /******* A preempted workspace *******/

  /** The workspace has a service and no pod. */
  predicate Orphaned(s: Cluster, name: string) {
    name in s.services && !Exists(s.pods, name)
  }

  lemma DropGone(pods: seq<Pod>, name: string, other: string)
    ensures !Exists(Drop(pods, name), name)
    ensures !Exists(pods, other) ==> !Exists(Drop(pods, name), other)
  {
    DropSpec(pods, name);
    forall i | 0 <= i < |Drop(pods, name)| ensures Drop(pods, name)[i] in pods && Drop(pods, name)[i].name != name {
      assert Drop(pods, name)[i] in Drop(pods, name);
    }
  }

  /**
   The one step that brings an orphaned workspace's pod back: a creation that fails and is not rolled back, or is not
   told of its pod.
   */
  predicate Revives(s: Cluster, e: Event, name: string) {
    && s.stage.Cleared? && s.stage.req.name == name && e.Create?
    && (e.answers.pod.Lost? || (e.answers.pod.Done? && !e.answers.rolledBack))
  }

  lemma StepKeepsOrphan(c: Config, s: Cluster, e: Event, name: string)
    requires Orphaned(s, name)
    ensures Orphaned(Step(c, s, e), name) <==> !Revives(s, e, name)
  {
    match e {
      case Dispose(n) => DropGone(s.pods, n, name);
      case Preempt(_) => if s.stage.Chosen? { DropGone(s.pods, s.stage.victim.name, name); }
      case Create(_) => if s.stage.Cleared? { assert Placed(s)[|s.pods|].name == s.stage.req.name; }
      case _ =>
    }
  }

  predicate NeverRevives(c: Config, s: Cluster, es: seq<Event>, name: string)
    decreases |es|
  {
    es != [] ==> !Revives(s, es[0], name) && NeverRevives(c, Step(c, s, es[0]), es[1..], name)
  }

  ghost predicate OrphanedAlong(c: Config, s: Cluster, es: seq<Event>, name: string)
    decreases |es|
  {
    Orphaned(s, name) && (es != [] ==> OrphanedAlong(c, Step(c, s, es[0]), es[1..], name))
  }

  lemma {:induction false} OrphanOverRuns(c: Config, s: Cluster, es: seq<Event>, name: string)
    requires Orphaned(s, name)
    ensures OrphanedAlong(c, s, es, name) <==> NeverRevives(c, s, es, name)
    decreases |es|
  {
    if es != [] {
      StepKeepsOrphan(c, s, es[0], name);
      if Orphaned(Step(c, s, es[0]), name) {
        OrphanOverRuns(c, Step(c, s, es[0]), es[1..], name);
      }
    }
  }

  /**
   After the preemption of a pod with a service, whatever is requested, disposed of or reconciled: the service stays and
   the pod is not back at any moment, exactly when no creation for the workspace leaves its pod behind on failure.
   */
  lemma PreemptedStaysDown(c: Config, s: Cluster, reply: Reply, es: seq<Event>)
    requires s.stage.Chosen? && Exists(s.pods, s.stage.victim.name) && s.stage.victim.name in s.services
    requires !reply.Refused?
    ensures var name, s' := s.stage.victim.name, Step(c, s, Preempt(reply));
            OrphanedAlong(c, s', es, name) <==> NeverRevives(c, s', es, name)
  {
    DropGone(s.pods, s.stage.victim.name, s.stage.victim.name);
    OrphanOverRuns(c, Step(c, s, Preempt(reply)), es, s.stage.victim.name);
  }

  lemma OnePodFills(c: Config, pods: seq<Pod>)
    requires |pods| == 1 && pods[0].phase.Running? && pods[0].kind.Spot? && Sum(pods[0].containers) == POD_CPU
    requires c.allocatable - c.idle <= c.wsCpu + POD_CPU
    ensures !Fits(c, Requested(pods)) && SpotPods(pods) == pods && Oldest(pods) == Some(0)
  {
    assert pods[..0] == [];
  }

  /** A run after which one spot workspace runs. */
  lemma OneRuns(c: Config) returns (es: seq<Event>)
    requires c.wsCpu < c.allocatable - c.idle
    ensures var s := Run(c, EMPTY, es);
            && s.stage.Idle? && s.pods == [Pod("a", Spot, Running, s.now, [Some(POD_CPU)], false, None)]
            && s.services == {"a"} && s.kills == []
  {
    es := Admitted(c, [], "a");
    var s := Run(c, EMPTY, es);
    assert |s.pods| == 1 && s.services == {"a"};
    Extend(c, EMPTY, es, PodRuns("a"));
    es := es + [PodRuns("a")];
    assert SetPhase(s.pods, "a", Pending, Running) == [s.pods[0].(phase := Running)];
  }

  lemma LockIsTaken(c: Config, s: Cluster, req: Request)
    requires s.stage.Idle? && !Fits(c, Requested(s.pods))
    ensures Step(c, s, Acquire(req)) == s.(stage := Locked(req))
    ensures Step(c, s.(stage := Locked(req)), Count) == s.(stage := Full(req))
  {
  }

  lemma OldestIsChosen(c: Config, s: Cluster, req: Request)
    requires |s.pods| == 1 && SpotPods(s.pods) == s.pods && Oldest(s.pods) == Some(0) && req.dedicated
    ensures Step(c, s.(stage := Full(req)), Choose) ==
            s.(stage := Chosen(req, s.pods[0], s.now - c.spotAge, s.pods))
  {
  }

  /** On a node with room for one workspace, a dedicated request makes the running spot workspace the victim. */
  lemma PreemptionHappens(c: Config) returns (es: seq<Event>)
    requires c.wsCpu < c.allocatable - c.idle <= c.wsCpu + POD_CPU
    ensures var s := Run(c, EMPTY, es);
            s.stage.Chosen? && s.stage.victim in s.pods && s.stage.victim.name in s.services
  {
    es := OneRuns(c);
    var s, req := Run(c, EMPTY, es), Request("b", true);
    var pod := s.pods[0];
    assert Sum(pod.containers) == POD_CPU by { assert pod.containers[..0] == []; }
    OnePodFills(c, s.pods);
    LockIsTaken(c, s, req);
    OldestIsChosen(c, s, req);
    Extend(c, EMPTY, es, Acquire(req));
    Extend(c, EMPTY, es + [Acquire(req)], Count);
    Extend(c, EMPTY, es + [Acquire(req)] + [Count], Choose);
    es := es + [Acquire(req)] + [Count] + [Choose];
  }

  lemma OldEnoughIsChosen(c: Config, s: Cluster, req: Request)
    requires |s.pods| == 1 && SpotPods(s.pods) == s.pods && Oldest(s.pods) == Some(0)
    requires s.pods[0].created < s.now - c.spotAge
    ensures Step(c, s.(stage := Full(req)), Choose) ==
            s.(stage := Chosen(req, s.pods[0], s.now - c.spotAge, s.pods))
  {
  }

  /** The same for a spot request, once the running workspace is past the age limit. */
  lemma SpotRequestPreempts(c: Config) returns (es: seq<Event>)
    requires c.wsCpu < c.allocatable - c.idle <= c.wsCpu + POD_CPU && c.spotAge >= 0
    ensures var s := Run(c, EMPTY, es); |s.kills| == 1 && !s.kills[0].dedicated && s.kills[0].pod.name == "a"
  {
    es := OneRuns(c);
    var s, req := Run(c, EMPTY, es), Request("b", false);
    Extend(c, EMPTY, es, Tick(c.spotAge + 1));
    es := es + [Tick(c.spotAge + 1)];
    es := OnlyPodPreempted(c, es, req);
  }

  lemma OnlyPodChosen(c: Config, s: Cluster, req: Request)
    requires |s.pods| == 1 && s.pods[0].phase.Running? && s.pods[0].kind.Spot?
    requires s.pods[0].created < s.now - c.spotAge
    ensures Step(c, s.(stage := Full(req)), Choose) == s.(stage := Chosen(req, s.pods[0], s.now - c.spotAge, s.pods))
  {
    assert s.pods[..0] == [] && s.pods == [s.pods[0]];
    OldEnoughIsChosen(c, s, req);
  }

  lemma OnlyPodFills(c: Config, s: Cluster, req: Request)
    requires s.stage.Idle? && |s.pods| == 1 && s.pods[0].phase.Running? && s.pods[0].kind.Spot?
    requires Sum(s.pods[0].containers) == POD_CPU && c.allocatable - c.idle <= c.wsCpu + POD_CPU
    ensures Step(c, Step(c, s, Acquire(req)), Count) == s.(stage := Full(req))
  {
    OnePodFills(c, s.pods);
    LockIsTaken(c, s, req);
  }

  lemma OnlyPodFull(c: Config, es: seq<Event>, req: Request, s: Cluster) returns (more: seq<Event>)
    requires s == Run(c, EMPTY, es)
    requires s.stage.Idle? && |s.pods| == 1 && s.pods[0].phase.Running? && s.pods[0].kind.Spot?
    requires Sum(s.pods[0].containers) == POD_CPU && c.allocatable - c.idle <= c.wsCpu + POD_CPU
    ensures Run(c, EMPTY, more) == s.(stage := Full(req))
  {
    OnlyPodFills(c, s, req);
    Extend(c, EMPTY, es, Acquire(req));
    more := es + [Acquire(req)];
    Extend(c, EMPTY, more, Count);
    more := more + [Count];
  }

  lemma OnlyPodReached(c: Config, es: seq<Event>, req: Request, s: Cluster) returns (more: seq<Event>)
    requires s == Run(c, EMPTY, es)
    requires s.stage.Idle? && |s.pods| == 1 && s.pods[0].phase.Running? && s.pods[0].kind.Spot?
    requires Sum(s.pods[0].containers) == POD_CPU && c.allocatable - c.idle <= c.wsCpu + POD_CPU
    requires s.pods[0].created < s.now - c.spotAge
    ensures Run(c, EMPTY, more) == s.(stage := Chosen(req, s.pods[0], s.now - c.spotAge, s.pods))
  {
    more := OnlyPodFull(c, es, req, s);
    OnlyPodChosen(c, s, req);
    Extend(c, EMPTY, more, Choose);
    more := more + [Choose];
  }

  lemma OnlyPodKilled(c: Config, s: Cluster, req: Request)
    requires |s.pods| == 1
    ensures var t := Step(c, s.(stage := Chosen(req, s.pods[0], s.now - c.spotAge, s.pods)), Preempt(Done));
            t.pods == [] && t.kills == s.kills + [Kill(s.pods[0], req.dedicated, s.now - c.spotAge, s.pods, s.now)]
  {
    var pod := s.pods[0];
    assert s.pods == [pod] && s.pods[..0] == [];
    assert Exists(s.pods, pod.name);
    assert Drop(s.pods, pod.name) == [];
  }

  /** A full node with one spot pod, old enough: the request kills it. */
  lemma OnlyPodPreempted(c: Config, es: seq<Event>, req: Request) returns (more: seq<Event>)
    requires var s := Run(c, EMPTY, es);
             && s.stage.Idle? && |s.pods| == 1 && s.pods[0].phase.Running? && s.pods[0].kind.Spot? && s.kills == []
             && Sum(s.pods[0].containers) == POD_CPU && s.pods[0].created < s.now - c.spotAge
    requires c.allocatable - c.idle <= c.wsCpu + POD_CPU
    ensures var s, s' := Run(c, EMPTY, es), Run(c, EMPTY, more);
            s'.pods == [] && s'.kills == [Kill(s.pods[0], req.dedicated, s.now - c.spotAge, s.pods, s.now)]
  {
    more := OnlyPodReached(c, es, req, Run(c, EMPTY, es));
    OnlyPodKilled(c, Run(c, EMPTY, es), req);
    Extend(c, EMPTY, more, Preempt(Done));
    more := more + [Preempt(Done)];
  }

  /** A dedicated workspace is created with a lease that runs for the lease time from now. */
  lemma DedicatedIsLeased(c: Config, s: Cluster, req: Request)
    requires s.stage == Cleared(req) && req.dedicated
    requires !Exists(s.pods, req.name) && req.name !in s.services && req.name !in s.leases
    ensures var s' := Step(c, s, Create(ALL_DONE));
            && s'.pods == s.pods + [Pod(req.name, Dedicated, Pending, s.now, [Some(POD_CPU)], true, None)]
            && s'.leases == s.leases[req.name := Lease(req.name, s.now, s.now + c.leaseTime)]
            && s'.services == s.services + {req.name} && s'.stage == Waiting(req) && s'.kills == s.kills
  {
  }

  /** A run after which one workspace, created dedicated, runs with its lease. */
  lemma OneLeased(c: Config) returns (es: seq<Event>)
    requires c.wsCpu < c.allocatable - c.idle
    ensures Run(c, EMPTY, es) ==
            EMPTY.(pods := [Pod("a", Dedicated, Running, 0, [Some(POD_CPU)], true, None)], services := {"a"},
                   leases := map["a" := Lease("a", 0, c.leaseTime)])
  {
    var req := Request("a", true);
    es := [Acquire(req)];
    Extend(c, EMPTY, [], es[0]);
    assert [] + es == es;
    Extend(c, EMPTY, es, Count);
    es := es + [Count];
    assert Run(c, EMPTY, es) == EMPTY.(stage := Cleared(req));
    DedicatedIsLeased(c, EMPTY.(stage := Cleared(req)), req);
    Extend(c, EMPTY, es, Create(ALL_DONE));
    es := es + [Create(ALL_DONE)];
    Extend(c, EMPTY, es, Scheduled);
    es := es + [Scheduled];
    var s := Run(c, EMPTY, es);
    PhaseSpec(s.pods, "a", Pending, Running, 0);
    assert SetPhase(s.pods, "a", Pending, Running) == [s.pods[0].(phase := Running)];
    Extend(c, EMPTY, es, PodRuns("a"));
    es := es + [PodRuns("a")];
  }

  lemma LeaseTurnsPod(c: Config, s: Cluster)
    requires |s.pods| == 1 && s.pods[0].name == "a" && s.leases == map["a" := Lease("a", 0, c.leaseTime)]
    requires c.leaseTime < s.now
    ensures var s' := Step(c, s, Reconcile("a", true, true));
            && s' == s.(pods := s'.pods, leases := map[]) && |s'.pods| == 1 && TurnedSpot(s.pods[0], s'.pods[0])
  {
    ReconcileSpec(s, "a", true, true);
  }

  /** A workspace created dedicated is preempted once its lease has run out. */
  lemma LapsedPodIsPreempted(c: Config) returns (es: seq<Event>)
    requires c.wsCpu < c.allocatable - c.idle <= c.wsCpu + POD_CPU && c.spotAge >= 0 && c.leaseTime >= 0
    ensures var s := Run(c, EMPTY, es); |s.kills| == 1 && s.kills[0].pod.asDedicated && s.kills[0].pod.name == "a"
  {
    es := OneLeased(c);
    var wait := c.leaseTime + c.spotAge + 1;
    Extend(c, EMPTY, es, Tick(wait));
    es := es + [Tick(wait)];
    LeaseTurnsPod(c, Run(c, EMPTY, es));
    Extend(c, EMPTY, es, Reconcile("a", true, true));
    es := es + [Reconcile("a", true, true)];
    var s := Run(c, EMPTY, es);
    assert Sum(s.pods[0].containers) == POD_CPU by { assert s.pods[0].containers[..0] == []; }
    es := OnlyPodPreempted(c, es, Request("b", false));
  }

  /******* The handlers as they run: the node's resources changed in place *******/

  datatype Failure = NoCapacity | Unknown | ProvisionFailed

  class Node {
    const config: Config
    var pods: seq<Pod>
    var services: set<string>
    var leases: map<string, Lease>
    var now: int
    var stage: Stage
    var kills: seq<Kill>

    constructor (config: Config, s: Cluster)
      ensures this.config == config && Now() == s
    {
      this.config := config;
      pods, services, leases, now, stage, kills := s.pods, s.services, s.leases, s.now, s.stage, s.kills;
    }

    function Now(): Cluster
      reads this
    {
      Cluster(pods, services, leases, now, stage, kills)
    }

    /** Deleting by name, as the loop over the stored pods does it. */
    method DeletePod(name: string)
      modifies this`pods
      ensures pods == Drop(old(pods), name)
    {
      var left := [];
      for i := 0 to |pods|
        invariant left == Drop(pods[..i], name)
      {
        assert pods[..i + 1][..i] == pods[..i];
        if pods[i].name != name {
          left := left + [pods[i]];
        }
      }
      assert pods[..|pods|] == pods;
      pods := left;
    }

    method DisposePod(name: string)
      modifies this`pods, this`services
      ensures Now() == Step(config, old(Now()), Dispose(name))
      ensures !Exists(pods, name)
      ensures services == if Exists(old(pods), name) then old(services) - {name} else old(services)
    {
      DisposeTakesBoth(config, Now(), name);
      if !Exists(pods, name) {
        return;
      }
      DeletePod(name);
      services := services - {name};
    }

    /** Deleting a workspace disposes of it twice and then deletes its lease, whether it has run out or not. */
    method DeleteWorkspace(name: string, leaseGoes: bool)
      modifies this`pods, this`services, this`leases
      ensures Now() == var gone := Step(config, Step(config, old(Now()), Dispose(name)), Dispose(name));
                       if leaseGoes then Step(config, gone, DeleteLease(name)) else gone
      ensures !Exists(pods, name)
      ensures leases == (if leaseGoes then old(leases) - {name} else old(leases))
    {
      DisposePod(name);
      DisposeTakesBoth(config, old(Now()), name);
      DisposePod(name);
      if leaseGoes {
        leases := leases - {name};
      }
    }

    method ReconcileLease(name: string, patched: bool, deleted: bool)
      modifies this`pods, this`leases
      ensures Now() == DoReconcile(old(Now()), name, patched, deleted)
      ensures !Expired(old(Now()), name) ==> pods == old(pods) && leases == old(leases)
      ensures Expired(old(Now()), name) ==>
                && leases == (if deleted then old(leases) - {name} else old(leases))
                && |pods| == |old(pods)|
                && forall i | 0 <= i < |pods| ::
                     if patched && old(pods)[i].name == old(leases)[name].pod then TurnedSpot(old(pods)[i], pods[i])
                     else pods[i] == old(pods)[i]
    {
      ReconcileSpec(Now(), name, patched, deleted);
      if name !in leases {
        return;
      }
      var lease := leases[name];
      if now <= lease.expiry {
        return;
      }
      if patched {
        pods := Downgrade(pods, lease);
      }
      if deleted {
        leases := leases - {name};
      }
    }

    /** The check, and the choice of a victim if the request does not fit. */
    method CheckCapacity(req: Request)
      requires stage == Locked(req)
      modifies this`stage
      ensures Now() == Step(config, Step(config, old(Now()), Count), Choose)
    {
      var spot := SpotPods(pods);
      var fits, victim := HasCapacity(config, pods, spot, req.dedicated, now);
      if fits {
        stage := Cleared(req);
      } else if victim.None? {
        stage := Idle;
      } else {
        stage := Chosen(req, spot[victim.value], now - config.spotAge, spot);
      }
    }

    method KillVictim(reply: Reply)
      requires stage.Chosen?
      modifies this`pods, this`stage, this`kills
      ensures Now() == DoPreempt(old(Now()), reply)
    {
      var req, name, cutoff, seen := stage.req, stage.victim.name, stage.cutoff, stage.seen;
      stage := Idle;
      if reply.Refused? || !Exists(pods, name) {
        return;
      }
      kills := kills + [Kill(NamedPod(pods, name), req.dedicated, cutoff, seen, now)];
      DeletePod(name);
      if reply.Done? {
        stage := Cleared(req);
      }
    }

    method CreatePod(a: Answers) returns (failed: bool)
      requires stage.Cleared?
      modifies this`pods, this`services, this`leases, this`stage
      ensures Now() == DoCreate(config, old(Now()), a)
      ensures failed <==> stage.Idle?
      ensures !failed ==>
                && a.pod.Done? && a.service.Done?
                && Exists(pods, old(stage).req.name) && old(stage).req.name in services
                && (old(stage).req.dedicated && !a.lease.Refused? ==> old(stage).req.name in leases)
      ensures failed ==> leases == old(leases)
    {
      CreateOutcome(config, Now(), a);
      var req := stage.req;
      stage := Idle;
      if a.pod.Refused? || Exists(pods, req.name) {
        return true;
      }
      var before := pods;
      pods := pods + [NewPod(Now(), req)];
      if a.pod.Lost? {
        return true;
      }
      var created := a.service.Done? && req.name !in services;
      if !a.service.Refused? {
        services := services + {req.name};
      }
      if !created {
        if a.rolledBack {
          pods := before;
        }
        return true;
      }
      if req.dedicated && !a.lease.Refused? && req.name !in leases {
        leases := leases[req.name := Lease(req.name, now, now + config.leaseTime)];
      }
      stage := Waiting(req);
      return false;
    }

    /** A request with nothing else happening meanwhile. */
    method Provision(req: Request, kill: Reply, a: Answers) returns (failure: Option<Failure>)
      requires stage.Idle?
      modifies this
      ensures Now() == Alone(config, old(Now()), req, kill, a)
      ensures failure == Some(NoCapacity) <==>
              !Fits(config, Requested(old(pods))) && Victim(config, SpotPods(old(pods)), req.dedicated, now).None?
      ensures failure == Some(NoCapacity) ==> pods == old(pods)
      ensures failure.None? ==> req.name in services && (req.dedicated && !a.lease.Refused? ==> req.name in leases)
    {
      stage := Locked(req);
      CheckCapacity(req);
      if stage.Idle? {
        return Some(NoCapacity);
      }
      if stage.Chosen? {
        KillVictim(kill);
        if stage.Idle? {
          return Some(Unknown);
        }
      }
      var failed := CreatePod(a);
      if failed {
        return Some(ProvisionFailed);
      }
      stage := Idle;
      return None;
    }
  }

  function Alone(c: Config, s: Cluster, req: Request, kill: Reply, a: Answers): Cluster {
    var checked := Step(c, Step(c, s.(stage := Locked(req)), Count), Choose);
    var cleared := if checked.stage.Chosen? then DoPreempt(checked, kill) else checked;
    var placed := if cleared.stage.Cleared? then DoCreate(c, cleared, a) else cleared;
    placed.(stage := Idle)
  }

  /** The handler run alone is one of the runs: its steps in a row. */
  lemma AloneIsARun(c: Config, s: Cluster, req: Request, kill: Reply, a: Answers)
    requires s.stage.Idle?
    ensures Alone(c, s, req, kill, a) ==
            Run(c, s, [Acquire(req), Count, Choose, Preempt(kill), Create(a), Scheduled, GiveUp])
  {
    var es := [Acquire(req), Count, Choose, Preempt(kill), Create(a), Scheduled, GiveUp];
    var s1 := Step(c, s, es[0]);
    var s2 := Step(c, s1, es[1]);
    assert es[0..] == es;
    Unroll(c, s, es, 0);
    Unroll(c, s1, es, 1);
    Unroll(c, s2, es, 2);
    FromChecked(c, Step(c, s2, es[2]), es);
  }

  lemma FromChecked(c: Config, s: Cluster, es: seq<Event>)
    requires |es| == 7 && es[3].Preempt? && es[4].Create? && es[5].Scheduled? && es[6].GiveUp?
    ensures var cleared := if s.stage.Chosen? then DoPreempt(s, es[3].reply) else s;
            var placed := if cleared.stage.Cleared? then DoCreate(c, cleared, es[4].answers) else cleared;
            Run(c, s, es[3..]) == placed.(stage := Idle)
  {
    var s4 := Step(c, s, es[3]);
    var s5 := Step(c, s4, es[4]);
    Unroll(c, s, es, 3);
    Unroll(c, s4, es, 4);
    Unroll(c, s5, es, 5);
    Unroll(c, Step(c, s5, es[5]), es, 6);
    assert es[7..] == [];
  }

  lemma Unroll(c: Config, s: Cluster, es: seq<Event>, k: nat)
    requires k < |es|
    ensures Run(c, s, es[k..]) == Run(c, Step(c, s, es[k]), es[k + 1..])
  {
    assert es[k..][1..] == es[k + 1..];
  }
}
