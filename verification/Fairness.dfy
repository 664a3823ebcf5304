/** Convergence over atomic steps. With the inputs fixed, every interleaving of the steps of the parent, the
    sub-controllers, the rollouts and the jobs closes the rotation, provided only that passes of the parent get to
    their end, StatefulSets are written, services report, pods roll and jobs end again and again. Passes may fail
    and lose their status patch in between, and a new sub-CR returns from its first pass without doing anything.
    Passes that were under way when the inputs changed, with whatever they have read, are part of the starting
    state. */
module Fairness {
  import opened Common
  import opened Cluster
  import opened Invariant
  import opened Passes
  import opened Convergence

  /** The inputs can be deployed. */
  predicate Steady(c: Cluster) {
    Inv(c) && !c.deleting && !c.gone && c.inp.t != NoSecret && c.inp.bus != Pending
  }

  // ---------------------------------------------------------------- calm steps

  /** A pass waits for a job that it has created. */
  predicate WaitsForJob(c: Cluster)
    requires c.pass.Active?
  {
    || (c.pass.stage == HeldAC && !DbDone(c) && DbSync(c.pass.inp.job) in c.started)
    || (c.pass.stage == DbSynced && !MigrationDone(c) && Migration(c.pass.inp.job) in c.started)
  }

  /** A service reports what is the case. */
  predicate Truthful(sub: Sub, count: nat, up: bool) {
    && sub.work.Deployed?
    && up == (sub.pods == {Template(sub.work.pair, sub.work.cfg)})
    && (up ==> count == sub.spec.replicas)
  }

  /** Pods that run the current template keep running. */
  predicate Forward(sub: Sub, pods: set<Template>) {
    sub.template.Some? && sub.template.value in sub.pods ==> sub.template.value in pods
  }

  /** The inputs stay, services report what is the case and pods that are up to date stay up. Passes may stop or
      lose their status patch anywhere; only the pass over a service that is done does not fail. */
  predicate Calm(c: Cluster, e: Event) {
    match e
    case FinishJob(_) => true
    case Collect(_) => true
    case SubStop(s) => s in c.inp.services && s in c.subs ==> ServiceRank(c, s) > 0
    case SubFinish(s, count, up) => s in c.inp.services && s in c.subs ==> Truthful(c.subs[s], count, up)
    case Roll(s, pods) => s in c.inp.services && s in c.subs ==> Forward(c.subs[s], pods)
    case _ => !IsEnv(e) && !IsRemoval(e)
  }

  predicate CalmRun(c: Cluster, es: seq<Event>)
    requires Legal(c, es)
    decreases |es|
  {
    es == [] || (Calm(c, es[0]) && CalmRun(Apply(c, es[0]), es[1..]))
  }

  // ---------------------------------------------------------------- fairness

  /** A pass comes to its end: it completes, stops at a changed hash or waits for a job. A pass over inputs that are no
      longer current may end anywhere. */
  predicate EndsPass(c: Cluster, e: Event)
    requires Enabled(c, e)
  {
    && c.pass.Active? && Apply(c, e).pass.Idle? && !e.Crash?
    && (e.Stop? ==> c.pass.inp != c.inp || WaitsForJob(c))
  }

  /** What has to happen again and again. */
  datatype Kind = PassEnd | Deploys(s: Service) | Reports(s: Service) | Rolls(s: Service) | JobEnds(job: Job)

  predicate Hits(c: Cluster, e: Event, k: Kind)
    requires Enabled(c, e)
  {
    match k
    case PassEnd => EndsPass(c, e)
    case Deploys(s) => e == SubDeploy(s)
    case Reports(s) => e.SubFinish? && e.s == s
    case Rolls(s) => s in c.subs && c.subs[s].template.Some? && e == Roll(s, {c.subs[s].template.value})
    case JobEnds(job) => e == FinishJob(job)
  }

  predicate Occurs(c: Cluster, es: seq<Event>, k: Kind)
    requires Legal(c, es)
    decreases |es|
  {
    es != [] && (Hits(c, es[0], k) || Occurs(Apply(c, es[0]), es[1..], k))
  }

  /** One fair stretch of a run: a pass of the parent ends, every service that exists writes its StatefulSet, reports
      and, if it has a template, rolls, and every job under way ends; all in any order, with anything between. */
  predicate FairRun(c: Cluster, es: seq<Event>)
    requires Legal(c, es)
  {
    && Occurs(c, es, PassEnd)
    && (forall s <- c.inp.services :: s in c.subs ==>
          && Occurs(c, es, Deploys(s)) && Occurs(c, es, Reports(s))
          && (c.subs[s].template.Some? ==> Occurs(c, es, Rolls(s))))
    && (forall j <- {DbSync(c.inp.job), Migration(c.inp.job)} ::
          j in c.started && j !in c.finished ==> Occurs(c, es, JobEnds(j)))
  }

  // ---------------------------------------------------------------- the measure

  /** The pass under way, if any, works on the current inputs and has done its work so far. */
  predicate PassGood(c: Cluster) {
    c.pass.Active? ==>
      var r := Rank(c.pass.stage);
      && c.pass.inp == c.inp
      && (forall s <- Done(c.pass) :: s in c.subs && c.subs[s].spec == SpecFor(c.inp, s))
      && (r >= 12 && c.pass.ready ==> c.pass.status.ac == c.inp.ac)
      && (r >= 11 && c.inp.bus.Published? ==> c.pass.status.n.Some?)
  }

  function Phase(c: Cluster): (n: nat) {
    if !PassGood(c) then 2 else if !Recorded(c) then 1 else 0
  }

  /** The pass under way on a sub-CR works on the current spec and config. */
  predicate WorkFresh(inp: Inputs, sub: Sub) {
    sub.work.Resting? ||
      (&& sub.work.gen == sub.gen
       && (sub.work.Loaded? || sub.work.Deployed? ==> sub.work.cfg == Rendering(inp)))
  }

  /** How far a service is from done: spec, pass under way, template, pods, report. */
  function SubRank(inp: Inputs, s: Service, sub: Sub): (n: nat)
    requires s in inp.services
  {
    if sub.spec != SpecFor(inp, s) then 5
    else if !WorkFresh(inp, sub) then 4
    else if sub.template != Some(Wanted(inp)) then 3
    else if sub.pods != {Wanted(inp)} then 2
    else if !Reported(sub) then 1
    else 0
  }

  function ServiceRank(c: Cluster, s: Service): (n: nat) {
    if s !in c.inp.services then 0 else if s !in c.subs then 5 else SubRank(c.inp, s, c.subs[s])
  }

  /** The rotation is closed, and the pass under way will not open it again. */
  predicate Closed(c: Cluster) {
    && Rotated(c)
    && (c.pass.Active? ==>
          TracksCurrent(c) && c.pass.status.dbSync == Some(c.inp.job) && c.pass.status.migration == Some(c.inp.job))
  }

  predicate AllZero(c: Cluster) {
    Outstanding(c) == 0 && forall s <- c.inp.services :: ServiceRank(c, s) == 0
  }

  /** No closed gate has been folded into the pass under way. */
  predicate GoodFold(c: Cluster) {
    c.pass.Active? && Rank(c.pass.stage) >= 8 ==> c.pass.ready
  }

  function Tail(c: Cluster): (n: nat) {
    if Closed(c) then 0 else if AllZero(c) && GoodFold(c) then 1 else 2
  }

  function RankTotal(c: Cluster, order: seq<Service>): (n: nat) {
    if order == [] then 0 else ServiceRank(c, order[0]) + RankTotal(c, order[1..])
  }

  function Distance(c: Cluster, order: seq<Service>): (n: nat) {
    if Phase(c) > 0 then 5 * |order| + 6 + Phase(c) else Outstanding(c) + RankTotal(c, order) + Tail(c)
  }

  lemma {:induction false} RankBound(c: Cluster, order: seq<Service>)
    ensures RankTotal(c, order) <= 5 * |order|
  {
    if order != [] { RankBound(c, order[1..]); }
  }

  lemma {:induction false} RankMono(c: Cluster, d: Cluster, order: seq<Service>)
    requires forall s <- order :: ServiceRank(d, s) <= ServiceRank(c, s)
    ensures RankTotal(d, order) <= RankTotal(c, order)
    ensures (exists s <- order :: ServiceRank(d, s) < ServiceRank(c, s)) ==> RankTotal(d, order) < RankTotal(c, order)
  {
    if order != [] { RankMono(c, d, order[1..]); }
  }

  // ---------------------------------------------------------------- the first two phases

  /** What calm steps leave alone. */
  lemma CalmKeepsInputs(c: Cluster, e: Event)
    requires Steady(c) && Enabled(c, e) && Calm(c, e)
    ensures Steady(Apply(c, e)) && Apply(c, e).inp == c.inp
    ensures !c.pass.Removing?
  {
    StepKeepsInv(c, e);
    if !IsEnv(e) && !IsSub(e) { ParentLeaves(c, e); }
  }

  lemma SubKeepsGood(c: Cluster, e: Event)
    requires Steady(c) && PassGood(c) && IsSub(e) && SubEnabled(c, e)
    ensures PassGood(OnSub(c, e.s, SubStep(c, e)))
  {
    assert SubOk(c.subs[e.s], c.config);
    SubStepKeeps(c, e);
  }

  lemma EnvKeepsGood(c: Cluster, e: Event)
    requires Steady(c) && PassGood(c) && EnvEnabled(c, e) && (e.FinishJob? || e.Collect?)
    ensures PassGood(EnvApply(c, e))
  {
  }

  lemma WriteKeepsGood(c: Cluster, s: Service)
    requires Steady(c) && PassGood(c) && ParentEnabled(c, WriteSub(s))
    ensures PassGood(ParentWriteSub(c, s))
  {
    var d := ParentWriteSub(c, s);
    assert Done(d.pass) == Done(c.pass) + {s};
  }

  lemma RenderKeepsGood(c: Cluster)
    requires Steady(c) && PassGood(c) && ParentEnabled(c, Render)
    ensures PassGood(ParentRender(c))
  {
  }

  /** The steps before the sub-CRs are written. */
  lemma EarlyKeepsGood(c: Cluster, e: Event)
    requires Steady(c) && PassGood(c) && ParentEnabled(c, e)
    requires e.Begin? || e.HoldT? || e.ReadBus? || e.HoldN? || e.CheckHash? || e.HoldAC? || e.StartDbSync?
    ensures PassGood(ParentApply(c, e))
  {
    match e
    case Begin =>
    case HoldT =>
    case ReadBus =>
    case HoldN =>
    case CheckHash =>
    case HoldAC =>
    case StartDbSync =>
  }

  lemma JobsKeepGood(c: Cluster, e: Event)
    requires Steady(c) && PassGood(c) && ParentEnabled(c, e)
    requires e.RunDbSync? || e.StartMigration? || e.RunMigration? || e.Sweep?
    ensures PassGood(ParentApply(c, e))
  {
    match e
    case RunDbSync =>
    case StartMigration =>
    case RunMigration =>
    case Sweep =>
  }

  lemma ReleaseKeepsGood(c: Cluster, e: Event)
    requires Steady(c) && PassGood(c) && ParentEnabled(c, e)
    requires e.ReleaseT? || e.ReleaseN?
    ensures PassGood(ParentApply(c, e))
  {
    match e
    case ReleaseT =>
    case ReleaseN =>
  }

  lemma StraysKeepGood(c: Cluster, e: Event)
    requires Steady(c) && PassGood(c) && ParentEnabled(c, e) && (e.ReleaseAC? || e.Prune?)
    ensures PassGood(ParentApply(c, e))
  {
    match e
    case ReleaseAC =>
    case Prune =>
  }

  lemma ParentKeepsGood(c: Cluster, e: Event)
    requires Steady(c) && PassGood(c) && !IsEnv(e) && !IsSub(e) && ParentEnabled(c, e) && Calm(c, e)
    ensures PassGood(ParentApply(c, e))
  {
    if e.WriteSub? {
      WriteKeepsGood(c, e.s);
    } else if e.Render? {
      RenderKeepsGood(c);
    } else if e.Complete? || e.Stop? || e.Crash? {
    } else if e.RunDbSync? || e.StartMigration? || e.RunMigration? || e.Sweep? {
      JobsKeepGood(c, e);
    } else if e.ReleaseT? || e.ReleaseN? {
      ReleaseKeepsGood(c, e);
    } else if e.ReleaseAC? || e.Prune? {
      StraysKeepGood(c, e);
    } else {
      EarlyKeepsGood(c, e);
    }
  }

  lemma KeepsGood(c: Cluster, e: Event)
    requires Steady(c) && PassGood(c) && Enabled(c, e) && Calm(c, e)
    ensures PassGood(Apply(c, e))
  {
    if IsEnv(e) {
      EnvKeepsGood(c, e);
    } else if IsSub(e) {
      SubKeepsGood(c, e);
    } else {
      ParentKeepsGood(c, e);
    }
  }

  /** Once recorded, the hash of the current inputs stays recorded and the config stays in place. */
  lemma ParentKeepsRecorded(c: Cluster, e: Event)
    requires Steady(c) && PassGood(c) && Recorded(c) && !IsEnv(e) && !IsSub(e) && ParentEnabled(c, e) && Calm(c, e)
    ensures var d := ParentApply(c, e); d.config == c.config && d.status.input == c.status.input
    ensures !e.CheckHash? || ParentApply(c, e).pass.Active?
  {
  }

  /** A pass over the current inputs ends with their hash recorded. */
  lemma EndRecords(c: Cluster, e: Event)
    requires Steady(c) && PassGood(c) && !IsEnv(e) && !IsSub(e) && ParentEnabled(c, e) && EndsPass(c, e)
    ensures Recorded(ParentApply(c, e))
    ensures Recorded(c) ==> e.Complete? || (e.Stop? && WaitsForJob(c))
  {
  }

  lemma PhaseStep(c: Cluster, e: Event)
    requires Steady(c) && Enabled(c, e) && Calm(c, e)
    ensures Phase(Apply(c, e)) <= Phase(c)
    ensures Phase(c) > 0 && Hits(c, e, PassEnd) ==> Phase(Apply(c, e)) < Phase(c)
  {
    CalmKeepsInputs(c, e);
    if PassGood(c) {
      KeepsGood(c, e);
      if !IsEnv(e) && !IsSub(e) {
        if Recorded(c) { ParentKeepsRecorded(c, e); }
        if EndsPass(c, e) { EndRecords(c, e); }
      }
    }
  }

  // ---------------------------------------------------------------- the services

  /** The last phase: the config is in place and every pass of the parent is over the current inputs. */
  predicate Placed(c: Cluster) {
    Steady(c) && PassGood(c) && Recorded(c)
  }

  lemma PlacedStep(c: Cluster, e: Event)
    requires Placed(c) && Enabled(c, e) && Calm(c, e)
    ensures Placed(Apply(c, e)) && Apply(c, e).inp == c.inp
  {
    CalmKeepsInputs(c, e);
    PhaseStep(c, e);
  }

  /** No step on a sub-CR takes it further away, and the step that it waits for takes it nearer. */
  lemma SubRankStep(c: Cluster, e: Event)
    requires Placed(c) && IsSub(e) && SubEnabled(c, e) && Calm(c, e) && e.s in c.inp.services
    ensures var n, r := SubRank(c.inp, e.s, c.subs[e.s]), SubRank(c.inp, e.s, SubStep(c, e));
            && r <= n
            && ((n == 4 || n == 1) && e.SubFinish? ==> r < n)
            && (n == 3 && e.SubDeploy? ==> r < n)
            && (n == 2 && c.subs[e.s].template.Some? && e == Roll(e.s, {c.subs[e.s].template.value}) ==> r < n)
  {
    assert SubOk(c.subs[e.s], c.config);
    match e
    case SubBegin(s) =>
    case SubLoad(s) =>
    case SubDeploy(s) =>
    case SubFinish(s, count, up) =>
    case SubStop(s) =>
    case Roll(s, pods) =>
  }

  lemma SubRanksStep(c: Cluster, e: Event)
    requires Placed(c) && IsSub(e) && SubEnabled(c, e) && Calm(c, e)
    ensures var d := OnSub(c, e.s, SubStep(c, e));
            forall s <- c.inp.services :: ServiceRank(d, s) <= ServiceRank(c, s)
  {
    if e.s in c.inp.services { SubRankStep(c, e); }
  }

  lemma WriteRanks(c: Cluster, s: Service)
    requires Placed(c) && ParentEnabled(c, WriteSub(s))
    ensures var d := ParentWriteSub(c, s);
            && (forall x <- c.inp.services :: ServiceRank(d, x) <= ServiceRank(c, x))
            && (ServiceRank(c, s) == 5 ==> ServiceRank(d, s) < 5)
            && (ServiceRank(c, s) == 0 ==> Gate(d.subs[s], Target(c.inp)))
  {
    if s in c.subs { assert SubOk(c.subs[s], c.config); }
  }

  /** The parent's other steps leave all that counts of the sub-CRs. */
  lemma OtherParentRanks(c: Cluster, e: Event)
    requires ParentEnabled(c, e) && !e.WriteSub?
    ensures var d := ParentApply(c, e);
            && d.subs.Keys == c.subs.Keys
            && (forall s <- c.subs :: d.subs[s] == c.subs[s].(since := d.subs[s].since))
  {
    if !e.Render? { OtherParentSubs(c, e); }
  }

  lemma SameRanks(c: Cluster, d: Cluster)
    requires d.inp == c.inp && d.subs.Keys == c.subs.Keys
    requires forall s <- c.subs :: d.subs[s] == c.subs[s].(since := d.subs[s].since)
    ensures forall s <- c.inp.services :: ServiceRank(d, s) == ServiceRank(c, s)
  {
  }

  lemma RanksStep(c: Cluster, e: Event)
    requires Placed(c) && Enabled(c, e) && Calm(c, e)
    ensures forall s <- c.inp.services :: ServiceRank(Apply(c, e), s) <= ServiceRank(c, s)
  {
    if IsEnv(e) {
    } else if IsSub(e) {
      SubRanksStep(c, e);
    } else if e.WriteSub? {
      WriteRanks(c, e.s);
    } else {
      ParentLeaves(c, e);
      OtherParentRanks(c, e);
      SameRanks(c, ParentApply(c, e));
    }
  }

  // ---------------------------------------------------------------- the jobs and the release

  lemma JobsStep(c: Cluster, e: Event, job: Job)
    requires Steady(c) && Enabled(c, e) && Calm(c, e)
    ensures JobLeft(Apply(c, e), job) <= JobLeft(c, job)
  {
    if !IsEnv(e) && !IsSub(e) { ParentLeaves(c, e); }
  }

  lemma EarlyKeepsClosed(c: Cluster, e: Event)
    requires Placed(c) && Closed(c) && ParentEnabled(c, e)
    requires e.Begin? || e.HoldT? || e.ReadBus? || e.HoldN? || e.Render? || e.CheckHash? || e.HoldAC?
    ensures Closed(ParentApply(c, e))
  {
    match e
    case Begin =>
    case HoldT =>
    case ReadBus =>
    case HoldN =>
    case Render =>
    case CheckHash =>
    case HoldAC =>
  }

  lemma LateKeepsClosed(c: Cluster, e: Event)
    requires Placed(c) && Closed(c) && ParentEnabled(c, e)
    requires e.ReleaseT? || e.ReleaseN? || e.ReleaseAC? || e.Prune? || e.Complete? || ((e.Stop? || e.Crash?)
        && c.pass.Active?)
    ensures Closed(ParentApply(c, e))
  {
    match e
    case ReleaseT =>
    case ReleaseN =>
    case ReleaseAC =>
    case Prune =>
    case Complete =>
    case Stop =>
    case Crash =>
  }

  lemma MiddleKeepsClosed(c: Cluster, e: Event)
    requires Placed(c) && Closed(c) && ParentEnabled(c, e)
    requires e.StartDbSync? || e.RunDbSync? || e.StartMigration? || e.RunMigration? || e.WriteSub? || e.Sweep?
    ensures Closed(ParentApply(c, e))
  {
    match e
    case StartDbSync =>
    case RunDbSync =>
    case StartMigration =>
    case RunMigration =>
    case WriteSub(s) =>
    case Sweep =>
  }

  lemma KeepsClosed(c: Cluster, e: Event)
    requires Placed(c) && Closed(c) && Enabled(c, e) && Calm(c, e)
    ensures Closed(Apply(c, e))
  {
    if IsEnv(e) {
    } else if IsSub(e) {
    } else if e.StartDbSync? || e.RunDbSync? || e.StartMigration? || e.RunMigration? || e.WriteSub? || e.Sweep? {
      MiddleKeepsClosed(c, e);
    } else if e.ReleaseT? || e.ReleaseN? || e.ReleaseAC? || e.Prune? || e.Complete? || e.Stop? || e.Crash? {
      LateKeepsClosed(c, e);
    } else {
      EarlyKeepsClosed(c, e);
    }
  }

  /** With every service done, no closed gate is folded in. */
  lemma KeepsFold(c: Cluster, e: Event)
    requires Placed(c) && AllZero(c) && GoodFold(c) && Enabled(c, e) && Calm(c, e)
    ensures GoodFold(Apply(c, e))
  {
    if !IsEnv(e) && !IsSub(e) { ParentKeepsFold(c, e); }
  }

  lemma ParentKeepsFold(c: Cluster, e: Event)
    requires Placed(c) && AllZero(c) && GoodFold(c) && !IsEnv(e) && !IsSub(e) && ParentEnabled(c, e) && Calm(c, e)
    ensures GoodFold(ParentApply(c, e))
  {
    if e.WriteSub? { WriteRanks(c, e.s); }
  }

  lemma TailStep(c: Cluster, e: Event)
    requires Placed(c) && Enabled(c, e) && Calm(c, e)
    ensures Tail(Apply(c, e)) <= Tail(c)
  {
    var d := Apply(c, e);
    PlacedStep(c, e);
    if Closed(c) {
      KeepsClosed(c, e);
    } else if AllZero(c) && GoodFold(c) {
      KeepsFold(c, e);
      RanksStep(c, e);
      JobsStep(c, e, DbSync(c.inp.job));
      JobsStep(c, e, Migration(c.inp.job));
    }
  }

  // ---------------------------------------------------------------- the end of a pass

  /** A pass over the placed config that ends has created the job that was missing, and with both jobs done it has
      written every service; with no closed gate folded in it closes the rotation. */
  lemma EndCompletes(c: Cluster, e: Event)
    requires Placed(c) && !IsEnv(e) && !IsSub(e) && ParentEnabled(c, e) && EndsPass(c, e)
    ensures JobLeft(c, DbSync(c.inp.job)) != 2
    ensures JobLeft(c, DbSync(c.inp.job)) == 0 ==> JobLeft(c, Migration(c.inp.job)) != 2
    ensures Outstanding(c) == 0 ==> e.Complete?
  {
    EndRecords(c, e);
  }

  lemma CompleteMeans(c: Cluster)
    requires Placed(c) && ParentEnabled(c, Complete)
    ensures forall s <- c.inp.services :: ServiceRank(c, s) < 5
    ensures GoodFold(c) ==> Closed(ParentComplete(c))
  {
    assert Done(c.pass) == c.inp.services.Keys;
    var d := ParentComplete(c);
    if GoodFold(c) {
      assert d.held == {c.inp.t, BusSecret(c.inp.bus)} - {NoSecret};
      assert d.acHeld == {c.inp.ac} - {NoSecret};
    }
  }

  // ---------------------------------------------------------------- every step

  predicate SameDistance(c: Cluster, d: Cluster) {
    && d.inp == c.inp && Phase(d) == Phase(c)
    && (Phase(c) == 0 ==>
          && JobLeft(d, DbSync(c.inp.job)) == JobLeft(c, DbSync(c.inp.job))
          && JobLeft(d, Migration(c.inp.job)) == JobLeft(c, Migration(c.inp.job))
          && (forall s <- c.inp.services :: ServiceRank(d, s) == ServiceRank(c, s))
          && Tail(d) == Tail(c))
  }

  /** No part is worse. */
  predicate NotFurther(c: Cluster, d: Cluster) {
    && d.inp == c.inp && Phase(d) == 0
    && JobLeft(d, DbSync(c.inp.job)) <= JobLeft(c, DbSync(c.inp.job))
    && JobLeft(d, Migration(c.inp.job)) <= JobLeft(c, Migration(c.inp.job))
    && (forall s <- c.inp.services :: ServiceRank(d, s) <= ServiceRank(c, s))
    && Tail(d) <= Tail(c)
  }

  lemma DistanceOfParts(c: Cluster, d: Cluster, order: seq<Service>)
    requires Phase(c) == 0 && NotFurther(c, d) && Lists(order, c.inp.services.Keys)
    ensures Distance(d, order) <= Distance(c, order)
    ensures Distance(d, order) < Distance(c, order) || SameDistance(c, d)
  {
    RankMono(c, d, order);
    if Distance(d, order) == Distance(c, order) {
      forall s <- c.inp.services ensures ServiceRank(d, s) == ServiceRank(c, s) { assert s in order; }
    }
  }

  lemma StepNotFurther(c: Cluster, e: Event)
    requires Placed(c) && Enabled(c, e) && Calm(c, e)
    ensures NotFurther(c, Apply(c, e))
  {
    PlacedStep(c, e);
    JobsStep(c, e, DbSync(c.inp.job));
    JobsStep(c, e, Migration(c.inp.job));
    RanksStep(c, e);
    TailStep(c, e);
  }

  lemma StepLowers(c: Cluster, e: Event, order: seq<Service>)
    requires Steady(c) && Enabled(c, e) && Calm(c, e) && Lists(order, c.inp.services.Keys)
    ensures Distance(Apply(c, e), order) <= Distance(c, order)
    ensures Distance(Apply(c, e), order) < Distance(c, order) || SameDistance(c, Apply(c, e))
  {
    var d := Apply(c, e);
    CalmKeepsInputs(c, e);
    if Phase(c) == 0 {
      StepNotFurther(c, e);
      DistanceOfParts(c, d, order);
    } else {
      PhaseStep(c, e);
      RankBound(d, order);
    }
  }

  /** The kind of event that brings a state forward. */
  predicate Needs(c: Cluster, k: Kind) {
    var db, mig := DbSync(c.inp.job), Migration(c.inp.job);
    if Phase(c) > 0 then k == PassEnd
    else if JobLeft(c, db) > 0 then k == (if JobLeft(c, db) == 2 then PassEnd else JobEnds(db))
    else if JobLeft(c, mig) > 0 then k == (if JobLeft(c, mig) == 2 then PassEnd else JobEnds(mig))
    else if exists s <- c.inp.services :: ServiceRank(c, s) == 5 then k == PassEnd
    else if exists s <- c.inp.services :: ServiceRank(c, s) > 0 then
      || (k.Reports? && k.s in c.inp.services && (ServiceRank(c, k.s) == 4 || ServiceRank(c, k.s) == 1))
      || (k.Deploys? && k.s in c.inp.services && ServiceRank(c, k.s) == 3)
      || (k.Rolls? && k.s in c.inp.services && ServiceRank(c, k.s) == 2)
    else Tail(c) > 0 && k == PassEnd
  }

  lemma NeedStays(c: Cluster, d: Cluster, k: Kind)
    requires SameDistance(c, d) && Needs(c, k)
    ensures Needs(d, k)
  {
  }

  /** In the last phase the end of a pass changes something that counts, if that is what is needed. */
  lemma EndHelps(c: Cluster, e: Event)
    requires Placed(c) && Enabled(c, e) && Calm(c, e) && Needs(c, PassEnd) && Hits(c, e, PassEnd)
    ensures !SameDistance(c, Apply(c, e))
  {
    assert !IsEnv(e) && !IsSub(e);
    EndCompletes(c, e);
    if Outstanding(c) == 0 { CompleteMeans(c); }
  }

  lemma SubHitHelps(c: Cluster, e: Event, k: Kind)
    requires Placed(c) && Enabled(c, e) && Calm(c, e) && Needs(c, k) && Hits(c, e, k) && IsSub(e)
    ensures !SameDistance(c, Apply(c, e))
  {
    SubRankStep(c, e);
    assert ServiceRank(Apply(c, e), e.s) < ServiceRank(c, e.s);
  }

  lemma HitHelps(c: Cluster, e: Event, k: Kind)
    requires Steady(c) && Enabled(c, e) && Calm(c, e) && Needs(c, k) && Hits(c, e, k)
    ensures !SameDistance(c, Apply(c, e))
  {
    if Phase(c) > 0 {
      PhaseStep(c, e);
    } else if k == PassEnd {
      EndHelps(c, e);
    } else if !k.JobEnds? {
      SubHitHelps(c, e, k);
    }
  }

  // ---------------------------------------------------------------- runs

  lemma {:induction false} CalmRunLowers(c: Cluster, es: seq<Event>, order: seq<Service>)
    requires Steady(c) && Legal(c, es) && CalmRun(c, es) && Lists(order, c.inp.services.Keys)
    ensures Steady(Run(c, es)) && Run(c, es).inp == c.inp && Distance(Run(c, es), order) <= Distance(c, order)
    decreases |es|
  {
    if es != [] {
      CalmKeepsInputs(c, es[0]);
      StepLowers(c, es[0], order);
      CalmRunLowers(Apply(c, es[0]), es[1..], order);
    }
  }

  /** What is needed stays needed until the distance has gone down. */
  lemma {:induction false} NeedArrives(c: Cluster, es: seq<Event>, k: Kind, order: seq<Service>)
    requires Steady(c) && Legal(c, es) && CalmRun(c, es) && Lists(order, c.inp.services.Keys)
    requires Needs(c, k) && Occurs(c, es, k)
    ensures Distance(Run(c, es), order) < Distance(c, order)
    decreases |es|
  {
    var d := Apply(c, es[0]);
    CalmKeepsInputs(c, es[0]);
    StepLowers(c, es[0], order);
    if !SameDistance(c, d) {
      CalmRunLowers(d, es[1..], order);
    } else {
      if Hits(c, es[0], k) { HitHelps(c, es[0], k); }
      NeedStays(c, d, k);
      NeedArrives(d, es[1..], k, order);
    }
  }

  predicate Arrived(c: Cluster) {
    Phase(c) == 0 && AllZero(c) && Closed(c)
  }

  lemma {:induction false} RankZero(c: Cluster, order: seq<Service>)
    ensures RankTotal(c, order) == 0 <==> forall s <- order :: ServiceRank(c, s) == 0
  {
    if order != [] { RankZero(c, order[1..]); }
  }

  lemma DistanceZero(c: Cluster, order: seq<Service>)
    requires Lists(order, c.inp.services.Keys)
    ensures Distance(c, order) == 0 <==> Arrived(c)
  {
    RankZero(c, order);
    if Distance(c, order) == 0 {
      forall s <- c.inp.services ensures ServiceRank(c, s) == 0 { assert s in order; }
    }
  }

  /** A fair stretch contains what is needed. */
  lemma FairHasNeed(c: Cluster, es: seq<Event>) returns (k: Kind)
    requires Steady(c) && Legal(c, es) && FairRun(c, es) && !Arrived(c)
    ensures Needs(c, k) && Occurs(c, es, k)
  {
    var db, mig := DbSync(c.inp.job), Migration(c.inp.job);
    k := PassEnd;
    if Phase(c) > 0 || JobLeft(c, db) == 2 {
    } else if JobLeft(c, db) == 1 {
      k := JobEnds(db);
    } else if JobLeft(c, mig) == 2 {
    } else if JobLeft(c, mig) == 1 {
      k := JobEnds(mig);
    } else if exists s <- c.inp.services :: ServiceRank(c, s) == 5 {
    } else if s :| s in c.inp.services && ServiceRank(c, s) > 0 {
      k := NeedOf(c, s);
    }
  }

  function NeedOf(c: Cluster, s: Service): (k: Kind) {
    if ServiceRank(c, s) == 3 then Deploys(s) else if ServiceRank(c, s) == 2 then Rolls(s) else Reports(s)
  }

  function RunAll(c: Cluster, rounds: seq<seq<Event>>): (d: Cluster)
    requires FairRounds(c, rounds)
    decreases |rounds|
  {
    if rounds == [] then c else RunAll(Run(c, rounds[0]), rounds[1..])
  }

  predicate FairRounds(c: Cluster, rounds: seq<seq<Event>>)
    decreases |rounds|
  {
    rounds == [] ||
      (Legal(c, rounds[0]) && CalmRun(c, rounds[0]) && FairRun(c, rounds[0])
          && FairRounds(Run(c, rounds[0]), rounds[1..]))
  }

  lemma {:induction false} RoundsArrive(c: Cluster, rounds: seq<seq<Event>>, order: seq<Service>)
    requires Steady(c) && Lists(order, c.inp.services.Keys) && FairRounds(c, rounds)
    requires |rounds| >= Distance(c, order)
    ensures Arrived(RunAll(c, rounds)) && Steady(RunAll(c, rounds))
    decreases |rounds|
  {
    DistanceZero(c, order);
    if rounds != [] {
      CalmRunLowers(c, rounds[0], order);
      if !Arrived(c) {
        var k := FairHasNeed(c, rounds[0]);
        NeedArrives(c, rounds[0], k, order);
      }
      RoundsArrive(Run(c, rounds[0]), rounds[1..], order);
    }
  }

  /** Convergence over atomic steps: from every state that can be reached, whatever passes are under way in it, 5 fair
      stretches for each service and 8 more close the rotation, whatever the interleaving: all services run the current
      secrets and report it, the current secrets are the tracked ones, and they alone are held. */
  lemma FairStepsConverge(c: Cluster, rounds: seq<seq<Event>>, order: seq<Service>)
    requires Steady(c) && Lists(order, c.inp.services.Keys) && FairRounds(c, rounds)
    requires |rounds| >= 5 * |order| + 8
    ensures Converged(RunAll(c, rounds)) && Arrived(RunAll(c, rounds))
  {
    RankBound(c, order);
    RoundsArrive(c, rounds, order);
  }

  /** The converged state is stable: no calm run leaves it. */
  lemma ConvergedStays(c: Cluster, es: seq<Event>, order: seq<Service>)
    requires Steady(c) && Arrived(c) && Legal(c, es) && CalmRun(c, es) && Lists(order, c.inp.services.Keys)
    ensures Arrived(Run(c, es)) && Converged(Run(c, es))
  {
    DistanceZero(c, order);
    CalmRunLowers(c, es, order);
    DistanceZero(Run(c, es), order);
  }

  // ---------------------------------------------------------------- the hash-changed stop

  /** How often the passes of a run stop at a changed hash. */
  function HashStopsIn(c: Cluster, es: seq<Event>): (n: nat)
    requires Legal(c, es)
    decreases |es|
  {
    if es == [] then 0
    else (if es[0].CheckHash? && Apply(c, es[0]).pass.Idle? then 1 else 0) + HashStopsIn(Apply(c, es[0]), es[1..])
  }

  /** In a calm run a pass over the current inputs stops there at most once, and the pass that was under way when the
      inputs changed may do so before. */
  lemma {:induction false} HashStopsBounded(c: Cluster, es: seq<Event>)
    requires Steady(c) && Legal(c, es) && CalmRun(c, es)
    ensures HashStopsIn(c, es) <= Phase(c)
    decreases |es|
  {
    if es != [] {
      CalmKeepsInputs(c, es[0]);
      PhaseStep(c, es[0]);
      if Phase(c) == 0 && es[0].CheckHash? { ParentKeepsRecorded(c, es[0]); }
      HashStopsBounded(Apply(c, es[0]), es[1..]);
    }
  }
}
