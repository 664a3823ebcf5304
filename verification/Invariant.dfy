/** What every step of every run keeps, whatever the outside world publishes and wherever a pass stops. */
module Invariant {
  import opened Common
  import opened Cluster

  /** A sub-CR has settled on its spec: the spec is observed, and its StatefulSet and all its pods use
      configs that were rendered after this generation of the spec was written. */
  predicate Settled(sub: Sub) {
    && sub.obs == sub.gen
    && (sub.template.Some? ==> sub.template.value.cfg in sub.since)
    && (forall p <- sub.pods :: p.cfg in sub.since)
  }

  /** The pass under way on a sub-CR works on a spec no older than the observed one. */
  predicate WorkOk(sub: Sub) {
    && (!sub.work.Resting? ==>
          && sub.obs <= sub.work.gen <= sub.gen
          && (sub.work.gen == sub.gen ==> sub.work.pair == sub.spec.pair))
    && (sub.work.Loaded? || sub.work.Deployed? ==> sub.work.gen == sub.gen ==> sub.work.cfg in sub.since)
    && (sub.work.Deployed? ==> sub.template == Some(Template(sub.work.pair, sub.work.cfg)))
  }

  predicate SubOk(sub: Sub, config: Config) {
    && sub.spec.replicas >= 1
    && sub.spec.pair.t.Messaging? && NotificationsName(sub.spec.pair.n)
    && (!sub.registered ==> sub.template == None && sub.deployed == Unknown && (sub.work.Resting? || sub.work.Started?))
    && sub.obs <= sub.gen
    && config in sub.since
    && WorkOk(sub)
    && (sub.obs == sub.gen && sub.deployed == True ==> sub.applied == sub.spec.pair && Settled(sub))
  }

  predicate HeldOrNone(held: set<Secret>, s: Secret) {
    s == NoSecret || s in held
  }

  /** Names have the kind of the place they are used in. */
  predicate MessagingName(s: Secret) { s == NoSecret || s.Messaging? }

  predicate NotificationsName(s: Secret) { s == NoSecret || s.Notifications? }

  predicate InputsOk(inp: Inputs) {
    && MessagingName(inp.t) && NotificationsName(BusSecret(inp.bus))
    && (inp.bus.Published? ==> inp.bus.secret != NoSecret)
    && (forall s <- inp.services :: inp.services[s] >= 1)
  }

  predicate StatusOk(status: Status, finished: set<Job>) {
    && MessagingName(status.t) && NotificationsName(Tracked(status.n))
    && (status.dbSync.Some? ==> DbSync(status.dbSync.value) in finished)
    && (status.migration.Some? ==> Migration(status.migration.value) in finished)
  }

  /** The facts a pass has established by the stage it is in. */
  predicate StageOk(pass: Pass, held: set<Secret>, config: Config)
    requires pass.Active?
  {
    var r := Rank(pass.stage);
    && pass.inp.t.Messaging?
    && (r >= 1 ==> pass.inp.t in held)
    && (r >= 3 ==> pass.inp.bus != Pending && (BusSecret(pass.inp.bus) == NoSecret || BusSecret(pass.inp.bus) in held))
    && (r >= 4 ==> config == Rendering(pass.inp))
    && (r >= 5 ==> pass.status.input == Some(config))
    && (r >= 7 ==> pass.status.dbSync == Some(pass.inp.job))
    && (r >= 8 ==> pass.status.migration == Some(pass.inp.job))
    && (r >= 9 ==> pass.todo == {})
    && (r >= 10 && pass.ready ==> pass.status.t == pass.inp.t)
    && (r >= 11 && pass.ready ==> Tracked(pass.status.n) == BusSecret(pass.inp.bus))
    && (r >= 13 ==> held <= Keep(pass))
    && pass.todo <= pass.inp.services.Keys
  }

  /** The services a pass has written so far. */
  function Done(pass: Pass): (r: set<Service>)
    requires pass.Active?
  {
    if Rank(pass.stage) >= 8 then pass.inp.services.Keys - pass.todo else {}
  }

  /** Every service written so far names the pass's secrets and, while the gates fold to true, has settled on them. */
  predicate WrittenOk(pass: Pass, subs: map<Service, Sub>)
    requires pass.Active?
  {
    forall s <- Done(pass) :: s in subs ==>
      subs[s].spec.pair == Target(pass.inp) && (pass.ready ==> Settled(subs[s]))
  }

  predicate PassOk(c: Cluster) {
    c.pass.Active? ==>
      && InputsOk(c.pass.inp)
      && StatusOk(c.pass.status, c.finished)
      && c.pass.status.input == c.status.input
      && (Rank(c.pass.stage) >= 6 ==> HeldOrNone(c.acHeld, c.pass.inp.ac))
      && StageOk(c.pass, c.held, c.config)
      && WrittenOk(c.pass, c.subs)
  }

  /** A job runs to its end only once it was created, and the migration is created only after the sync ended. */
  predicate JobsOk(started: set<Job>, finished: set<Job>) {
    && finished <= started
    && (forall j <- started :: j.Migration? ==> DbSync(j.def) in finished)
  }

  /** What a deletion has cleared so far. */
  predicate RemovalOk(c: Cluster) {
    c.pass.Removing? ==>
      && c.deleting
      && (!c.pass.progress.Unholding? ==> c.held == {})
      && (c.pass.progress.ClearedBoth? ==> c.acHeld == {})
  }

  predicate SubsOk(subs: map<Service, Sub>, config: Config) {
    forall s <- subs :: SubOk(subs[s], config)
  }

  predicate Inv(c: Cluster) {
    && NoSecret !in c.held && NoSecret !in c.acHeld
    && (c.gone ==> c.held == {} && c.acHeld == {} && c.pass.Idle?)
    && InputsOk(c.inp)
    && StatusOk(c.status, c.finished)
    && SubsOk(c.subs, c.config)
    && PassOk(c)
    && JobsOk(c.started, c.finished)
    && RemovalOk(c)
  }

  // ---------------------------------------------------------------- one sub-CR

  /** Every step on a sub-CR keeps it well-formed and, once settled, settled on the same spec. */
  lemma SubStepKeeps(c: Cluster, e: Event)
    requires IsSub(e) && SubEnabled(c, e) && SubOk(c.subs[e.s], c.config)
    ensures var sub, r := c.subs[e.s], SubStep(c, e);
            SubOk(r, c.config) && r.spec == sub.spec && r.since == sub.since && (Settled(sub) ==> Settled(r))
  {
    match e
    case SubBegin(s) =>
    case SubLoad(s) =>
    case SubDeploy(s) =>
    case SubFinish(s, count, up) =>
    case SubStop(s) =>
    case Roll(s, pods) =>
      var sub := c.subs[s];
      if Settled(sub) {
        forall p <- pods ensures p.cfg in sub.since {}
      }
  }

  /** Writing a sub-CR keeps it well-formed; an unchanged spec keeps the whole object. */
  lemma WrittenSubOk(subs: map<Service, Sub>, s: Service, spec: SubSpec, config: Config)
    requires SubsOk(subs, config) && spec.replicas >= 1 && spec.pair.t.Messaging? && NotificationsName(spec.pair.n)
    ensures var r := Written(subs, s, spec, config);
            && SubOk(r, config) && r.spec == spec
            && (Gate(r, spec.pair) ==> Settled(r))
  {
    if s in subs { assert SubOk(subs[s], config); }
  }

  /** The per-service gate in any run: an open gate means that the spec names the expected secrets and
      that the service has settled on it. */
  lemma GateSettles(sub: Sub, config: Config, expected: Pair)
    requires SubOk(sub, config) && Gate(sub, expected)
    ensures sub.spec.pair == expected && Settled(sub)
  {
  }

  /** The service has reported: its current spec is observed, all its replicas are ready, and the applied hash is that
      of the secrets the spec names. */
  predicate Reported(sub: Sub) {
    sub.obs == sub.gen && sub.deployed == True && sub.applied == sub.spec.pair && sub.count == sub.spec.replicas
  }

  /** The gate in any run is open exactly for a service that has reported under the expected secrets; a service scaled
      to zero is ready when its condition says that nothing is requested. */
  lemma GateIsReported(sub: Sub, config: Config, expected: Pair)
    ensures SubOk(sub, config) ==> (Gate(sub, expected) <==> Reported(sub) && sub.spec.pair == expected)
    ensures sub.spec.replicas == 0 ==>
              (IsReady(sub) <==> sub.obs == sub.gen && sub.count == 0 && sub.deployed != Unknown)
  {
  }

  // ---------------------------------------------------------------- every step

  /** What the parent never touches. */
  lemma ParentLeaves(c: Cluster, e: Event)
    requires ParentEnabled(c, e)
    ensures var d := ParentApply(c, e);
            && d.inp == c.inp && d.finished == c.finished && c.started <= d.started && d.deleting == c.deleting
            && d.gone == (c.gone || e.Delete?)
  {
    match e
    case Begin => case HoldT => case ReadBus => case HoldN => case Render => case CheckHash => case HoldAC =>
    case StartDbSync => case RunDbSync => case StartMigration => case RunMigration => case WriteSub(s) => case Sweep =>
    case ReleaseT => case ReleaseN => case ReleaseAC => case Prune => case Complete => case Stop => case Crash =>
    case BeginDelete => case Unhold(x) => case UnholdAC(x) => case Clear => case ClearAC => case Delete =>
  }

  /** Only two steps of the parent touch the sub-CRs. */
  lemma OtherParentSubs(c: Cluster, e: Event)
    requires ParentEnabled(c, e) && !e.WriteSub? && !e.Render?
    ensures ParentApply(c, e).subs == c.subs
  {
    match e
    case Begin => case HoldT => case ReadBus => case HoldN => case CheckHash => case HoldAC =>
    case StartDbSync => case RunDbSync => case StartMigration => case RunMigration => case Sweep =>
    case ReleaseT => case ReleaseN => case ReleaseAC => case Prune => case Complete => case Stop => case Crash =>
    case BeginDelete => case Unhold(x) => case UnholdAC(x) => case Clear => case ClearAC => case Delete =>
  }

  lemma EnvKeepsInv(c: Cluster, e: Event)
    requires Inv(c) && EnvEnabled(c, e)
    ensures Inv(EnvApply(c, e))
  {
    match e
    case Collect(s) =>
    case _ =>
  }

  lemma SubKeepsInv(c: Cluster, e: Event)
    requires Inv(c) && IsSub(e) && SubEnabled(c, e)
    ensures Inv(OnSub(c, e.s, SubStep(c, e)))
  {
    SubStepKeeps(c, e);
  }

  lemma RenderKeepsInv(c: Cluster)
    requires Inv(c) && ParentEnabled(c, Render)
    ensures Inv(ParentRender(c))
  {
    var d := ParentRender(c);
    forall s <- d.subs ensures SubOk(d.subs[s], d.config) {
      assert SubOk(c.subs[s], c.config);
    }
  }

  lemma WriteSubKeepsInv(c: Cluster, s: Service)
    requires Inv(c) && ParentEnabled(c, WriteSub(s))
    ensures Inv(ParentWriteSub(c, s))
  {
    var d := ParentWriteSub(c, s);
    WrittenSubOk(c.subs, s, SpecFor(c.pass.inp, s), c.config);
    assert Done(d.pass) == Done(c.pass) + {s};
  }

  /** A step after the sub-CRs have been written only moves finalizers and the in-memory status. */
  lemma FinishingKeepsInv(c: Cluster, d: Cluster)
    requires Inv(c) && !c.gone && c.pass.Active? && d.pass.Active?
    requires d == c.(held := d.held, acHeld := d.acHeld, pass := d.pass) && d.held <= c.held && d.acHeld <= c.acHeld
    requires d.pass == c.pass.(stage := d.pass.stage, status := d.pass.status)
    requires Rank(c.pass.stage) >= 8 && Rank(d.pass.stage) >= 9
    requires StatusOk(d.pass.status, d.finished) && d.pass.status.input == c.pass.status.input
    requires StageOk(d.pass, d.held, d.config) && HeldOrNone(d.acHeld, d.pass.inp.ac)
    ensures Inv(d)
  {
    assert Done(d.pass) == Done(c.pass);
  }

  lemma ReleaseTKeepsInv(c: Cluster)
    requires Inv(c) && ParentEnabled(c, ReleaseT)
    ensures Inv(ParentReleaseT(c))
  {
    FinishingKeepsInv(c, ParentReleaseT(c));
  }

  lemma ReleaseNKeepsInv(c: Cluster)
    requires Inv(c) && ParentEnabled(c, ReleaseN)
    ensures Inv(ParentReleaseN(c))
  {
    var d, prev, value := ParentReleaseN(c), Tracked(c.pass.status.n), BusSecret(c.pass.inp.bus);
    assert d.pass == c.pass.(stage := ReleasedN, status := c.pass.status.(n := d.pass.status.n));
    assert d.held == c.held || (d.held == c.held - {prev} && prev != value && prev.Notifications?);
    assert Tracked(d.pass.status.n) == if c.pass.ready || prev == NoSecret then value else prev;
    FinishingKeepsInv(c, d);
  }

  /** The steps up to the write of the config. */
  lemma EarlyKeepsInv(c: Cluster, e: Event)
    requires Inv(c) && ParentEnabled(c, e) && (e.Begin? || e.HoldT? || e.ReadBus? || e.HoldN?)
    ensures Inv(ParentApply(c, e))
  {
    match e
    case Begin =>
    case HoldT =>
    case ReadBus =>
    case HoldN =>
  }

  /** The steps between the config and the jobs. */
  lemma InitKeepsInv(c: Cluster, e: Event)
    requires Inv(c) && ParentEnabled(c, e) && (e.CheckHash? || e.HoldAC?)
    ensures Inv(ParentApply(c, e))
  {
    match e
    case CheckHash =>
    case HoldAC =>
  }

  /** A job has finished. */
  lemma JobKeepsInv(c: Cluster, e: Event)
    requires Inv(c) && ParentEnabled(c, e) && (e.RunDbSync? || e.RunMigration?)
    ensures Inv(ParentApply(c, e))
  {
    match e
    case RunDbSync =>
    case RunMigration =>
  }

  /** The creation of a job. */
  lemma StartKeepsInv(c: Cluster, e: Event)
    requires Inv(c) && ParentEnabled(c, e) && (e.StartDbSync? || e.StartMigration?)
    ensures Inv(ParentApply(c, e))
  {
  }

  /** The steps of a deletion. */
  lemma RemovalKeepsInv(c: Cluster, e: Event)
    requires Inv(c) && ParentEnabled(c, e) && IsRemoval(e)
    ensures Inv(ParentApply(c, e))
  {
    match e
    case BeginDelete =>
    case Unhold(x) =>
    case UnholdAC(x) =>
    case Clear =>
    case ClearAC =>
    case Delete =>
  }

  /** The steps after the sub-CRs. */
  lemma LateKeepsInv(c: Cluster, e: Event)
    requires Inv(c) && ParentEnabled(c, e) && (e.Sweep? || e.ReleaseAC?)
    ensures Inv(ParentApply(c, e))
  {
    FinishingKeepsInv(c, ParentApply(c, e));
  }

  lemma PruneKeepsInv(c: Cluster)
    requires Inv(c) && ParentEnabled(c, Prune)
    ensures Inv(ParentPrune(c))
  {
    FinishingKeepsInv(c, ParentPrune(c));
  }

  /** The three ways out of a pass. */
  lemma EndKeepsInv(c: Cluster, e: Event)
    requires Inv(c) && ParentEnabled(c, e) && (e.Complete? || e.Stop? || e.Crash?)
    ensures Inv(ParentApply(c, e))
  {
    match e
    case Complete =>
    case Stop =>
    case Crash =>
  }

  lemma ParentKeepsInv(c: Cluster, e: Event)
    requires Inv(c) && !IsEnv(e) && !IsSub(e) && ParentEnabled(c, e)
    ensures Inv(ParentApply(c, e))
  {
    if e.Render? {
      RenderKeepsInv(c);
    } else if e.WriteSub? {
      WriteSubKeepsInv(c, e.s);
    } else if e.ReleaseT? {
      ReleaseTKeepsInv(c);
    } else if e.ReleaseN? {
      ReleaseNKeepsInv(c);
    } else if e.Begin? || e.HoldT? || e.ReadBus? || e.HoldN? {
      EarlyKeepsInv(c, e);
    } else if e.CheckHash? || e.HoldAC? {
      InitKeepsInv(c, e);
    } else if e.RunDbSync? || e.RunMigration? {
      JobKeepsInv(c, e);
    } else if e.StartDbSync? || e.StartMigration? {
      StartKeepsInv(c, e);
    } else if IsRemoval(e) {
      RemovalKeepsInv(c, e);
    } else if e.Complete? || e.Stop? || e.Crash? {
      EndKeepsInv(c, e);
    } else if e.Prune? {
      PruneKeepsInv(c);
    } else {
      LateKeepsInv(c, e);
    }
  }

  lemma StepKeepsInv(c: Cluster, e: Event)
    requires Inv(c) && Enabled(c, e)
    ensures Inv(Apply(c, e))
  {
    if IsEnv(e) {
      EnvKeepsInv(c, e);
    } else if IsSub(e) {
      SubKeepsInv(c, e);
    } else {
      ParentKeepsInv(c, e);
    }
  }

  lemma {:induction false} RunKeepsInv(c: Cluster, es: seq<Event>)
    requires Inv(c) && Legal(c, es)
    ensures Inv(Run(c, es))
    decreases |es|
  {
    if es != [] {
      StepKeepsInv(c, es[0]);
      RunKeepsInv(Apply(c, es[0]), es[1..]);
    }
  }

  lemma FreshInv(c: Cluster)
    requires Fresh(c)
    ensures Inv(c)
  {
  }
}
