/** With the inputs fixed, every fair schedule of whole passes and rollouts ends in the state where the current
    secrets are the tracked ones, they alone hold finalizers, and a further pass changes nothing. */
module Convergence {
  import opened Common
  import opened Cluster
  import opened Invariant
  import opened Passes

  /** The moves of a schedule: a whole pass of the parent, a whole pass of a sub-controller, the rollout of a
      StatefulSet, the end of a job. */
  datatype Move = ParentMove | SubMove(s: Service) | RollMove(s: Service) | JobMove(job: Job)

  function Wanted(inp: Inputs): (r: Template) {
    Template(Target(inp), Rendering(inp))
  }

  /** An uninterrupted sub pass. The first one over a new sub-CR registers it and returns; in any other the
      deployment is up when its pods, and there are some, all run its template. */
  function SubPass(sub: Sub, config: Config): (r: Sub)
    requires sub.work.Resting?
  {
    if !sub.registered then SubQuit(SubStart(sub)) else
    var d := SubApply(SubRead(SubStart(sub), config));
    var up := d.pods == {d.template.value};
    SubReport(d, if up then d.spec.replicas else d.count, up)
  }

  function Do(c: Cluster, m: Move): (d: Cluster)
    requires CanPass(c) && forall s <- c.subs :: c.subs[s].work.Resting?
  {
    match m
    case ParentMove => FullPass(c)
    case SubMove(s) => if s in c.subs then OnSub(c, s, SubPass(c.subs[s], c.config)) else c
    case RollMove(s) =>
      if s in c.subs && c.subs[s].template.Some? then OnSub(c, s, SubRoll(c.subs[s], {c.subs[s].template.value})) else c
    case JobMove(job) => if job in c.started then c.(finished := c.finished + {job}) else c
  }

  /** Nothing is under way. */
  predicate Quiet(c: Cluster) {
    Inv(c) && CanPass(c) && forall s <- c.subs :: c.subs[s].work.Resting?
  }

  // ---------------------------------------------------------------- the measure

  /** The input hash is recorded and the config in place is the one it belongs to. */
  predicate Recorded(c: Cluster) {
    c.status.input == Some(Rendering(c.inp)) && c.config == Rendering(c.inp)
  }

  /** A job has to be created and to end. */
  function JobLeft(c: Cluster, job: Job): (n: nat) {
    if job in c.finished then 0 else if job in c.started then 1 else 2
  }

  function Outstanding(c: Cluster): (n: nat) {
    JobLeft(c, DbSync(c.inp.job)) + JobLeft(c, Migration(c.inp.job))
  }

  predicate Stale(c: Cluster, s: Service)
    requires s in c.inp.services
  {
    s !in c.subs || c.subs[s].spec != SpecFor(c.inp, s)
  }

  /** How far a service is from done: spec, registration, template, pods, report. */
  function Weight(c: Cluster, s: Service): (n: nat) {
    if s !in c.inp.services then 0
    else if Stale(c, s) then 5
    else if !c.subs[s].registered then 4
    else if c.subs[s].template != Some(Wanted(c.inp)) then 3
    else if c.subs[s].pods != {Wanted(c.inp)} then 2
    else if !Reported(c.subs[s]) then 1
    else 0
  }

  function Total(c: Cluster, order: seq<Service>): (n: nat) {
    if order == [] then 0 else Weight(c, order[0]) + Total(c, order[1..])
  }

  /** The rotation is closed: the current secrets are tracked and they alone are held; the jobs are recorded. */
  predicate Rotated(c: Cluster) {
    && c.status.t == c.inp.t && Tracked(c.status.n) == BusSecret(c.inp.bus) && c.status.ac == c.inp.ac
    && (c.inp.bus.Published? ==> c.status.n.Some?)
    && c.held == {c.inp.t, BusSecret(c.inp.bus)} - {NoSecret}
    && c.acHeld == {c.inp.ac} - {NoSecret}
    && c.status.dbSync == Some(c.inp.job) && c.status.migration == Some(c.inp.job)
  }

  function Measure(c: Cluster, order: seq<Service>): (n: nat) {
    if !Recorded(c) then 5 * |order| + 6
    else Outstanding(c) + Total(c, order) + (if Rotated(c) then 0 else 1)
  }

  predicate Converged(c: Cluster) {
    Recorded(c) && Outstanding(c) == 0 && (forall s <- c.inp.services :: Weight(c, s) == 0) && Rotated(c)
  }

  /** Two states agree on every part of the measure. */
  predicate SameParts(c: Cluster, d: Cluster) {
    && Recorded(c) == Recorded(d) && Rotated(c) == Rotated(d) && c.inp == d.inp
    && (Recorded(c) ==>
          && JobLeft(c, DbSync(c.inp.job)) == JobLeft(d, DbSync(c.inp.job))
          && JobLeft(c, Migration(c.inp.job)) == JobLeft(d, Migration(c.inp.job)))
    && (Recorded(c) ==> forall s <- c.inp.services :: Weight(c, s) == Weight(d, s))
  }

  /** The move that brings a state forward, read off the measure. */
  predicate Helps(c: Cluster, m: Move) {
    if !Recorded(c) then m == ParentMove
    else if Outstanding(c) > 0 then
      var job := if JobLeft(c, DbSync(c.inp.job)) > 0 then DbSync(c.inp.job) else Migration(c.inp.job);
      m == if JobLeft(c, job) == 2 then ParentMove else JobMove(job)
    else if exists s <- c.inp.services :: Weight(c, s) == 5 then m == ParentMove
    else if exists s <- c.inp.services :: Weight(c, s) > 0 then
      || (m.SubMove? && m.s in c.inp.services && (Weight(c, m.s) == 4 || Weight(c, m.s) == 3 || Weight(c, m.s) == 1))
      || (m.RollMove? && m.s in c.inp.services && Weight(c, m.s) == 2)
    else !Rotated(c) && m == ParentMove
  }

  // ---------------------------------------------------------------- sums

  lemma {:induction false} TotalBound(c: Cluster, order: seq<Service>)
    ensures Total(c, order) <= 5 * |order|
  {
    if order != [] { TotalBound(c, order[1..]); }
  }

  lemma {:induction false} TotalMono(c: Cluster, d: Cluster, order: seq<Service>)
    requires forall s <- order :: Weight(d, s) <= Weight(c, s)
    ensures Total(d, order) <= Total(c, order)
    ensures (exists s <- order :: Weight(d, s) < Weight(c, s)) ==> Total(d, order) < Total(c, order)
  {
    if order != [] { TotalMono(c, d, order[1..]); }
  }

  // ---------------------------------------------------------------- what a parent pass does

  lemma PreparedKeepsSubs(c: Cluster)
    requires Quiet(c) && Recorded(c)
    ensures var p := Prepared(c);
            p.subs == c.subs && p.config == c.config && p.pass.status.input == Some(p.config)
  {
    var p := Prepared(c);
    forall s <- c.subs ensures p.subs[s] == c.subs[s] {
      assert SubOk(c.subs[s], c.config);
      assert c.subs[s].since + {c.config} == c.subs[s].since;
    }
  }

  /** What the end of a pass does not touch. */
  lemma FinishingKeeps(b: Cluster)
    requires b.pass.Active?
    ensures var d := Finishing(b);
            && d.inp == b.inp && d.finished == b.finished && d.started == b.started
            && d.config == b.config && d.subs == b.subs
            && d.deleting == b.deleting && d.gone == b.gone && d.pass.Idle?
            && d.status.input == b.pass.status.input
  {
    var b1 := ParentReleaseT(Next(b, Swept));
    var b2 := ParentReleaseN(b1);
    assert b2 == b.(held := b2.held, pass := b2.pass) && b2.pass.status.input == b.pass.status.input;
  }

  /** A whole pass ends because the input hash changed. */
  predicate StopsAtHash(c: Cluster)
    requires CanPass(c)
  {
    Prepared(c).pass.status.input != Some(Prepared(c).config)
  }

  /** What a pass has done when the config is in place. */
  lemma PreparedIs(c: Cluster)
    requires CanPass(c)
    ensures var p := Prepared(c);
            && p == c.(held := p.held, config := Rendering(c.inp), subs := p.subs, pass := p.pass)
            && p.pass == Active(Rendered, c.inp, c.status.(t := p.pass.status.t, n := p.pass.status.n), {}, true)
            && p.held == Add(Add(c.held, c.inp.t), BusSecret(c.inp.bus))
            && p.pass.status.t == (if c.status.t == NoSecret then c.inp.t else c.status.t)
            && p.pass.status.n == (if c.inp.bus != Disabled && c.status.n == None then Some(NoSecret) else c.status.n)
            && p.subs.Keys == c.subs.Keys
            && (forall s <- c.subs :: p.subs[s] == c.subs[s].(since := c.subs[s].since + {p.config}))
  {
  }

  /** The state in which a completing pass has written all services. */
  function AllDeployed(c: Cluster): (w: Cluster)
    requires CanPass(c)
  {
    Deploy(Initialised(Prepared(c)))
  }

  lemma DeployedIs(c: Cluster)
    requires CanPass(c) && Completes(c)
    ensures var p, w, job := Prepared(c), AllDeployed(c), Some(c.inp.job);
            && FullPass(c) == Finishing(w)
            && w == p.(acHeld := Add(c.acHeld, c.inp.ac), subs := AllWritten(p.subs, c.inp, p.config),
                       started := w.started, pass := w.pass)
            && w.pass == Active(Writing, c.inp, p.pass.status.(dbSync := job, migration := job), {},
                                AllOpen(w.subs, c.inp))
            && (c.status.dbSync == job && c.status.migration == job ==> w.started == c.started)
  {
    PreparedIs(c);
  }

  /** What the second half of a pass keeps, and which jobs it creates. */
  lemma FromSyncKeeps(h: Cluster)
    requires h.pass.Active?
    ensures var d, job := FromSync(h), h.pass.inp.job;
            && d.inp == h.inp && d.finished == h.finished && h.started <= d.started && d.config == h.config
            && d.deleting == h.deleting && d.gone == h.gone && d.pass.Idle? && d.status.input == h.pass.status.input
            && (d.subs == h.subs || d.subs == AllWritten(h.subs, h.pass.inp, h.config))
            && (DbDone(h) && h.pass.status.migration != Some(job) ==> Migration(job) in d.started)
  {
    if DbDone(h) && MigrationDone(Migrating(h)) {
      FinishingKeeps(Deploy(ParentMigrate(Migrating(h))));
    }
  }

  lemma FromHashKeeps(k: Cluster)
    requires k.pass.Active?
    ensures var d, job := FromHash(k), k.pass.inp.job;
            && d.inp == k.inp && d.finished == k.finished && k.started <= d.started && d.config == k.config
            && d.deleting == k.deleting && d.gone == k.gone && d.pass.Idle? && d.status.input == k.pass.status.input
            && (d.subs == k.subs || d.subs == AllWritten(k.subs, k.pass.inp, k.config))
            && (k.pass.status.dbSync != Some(job) ==> DbSync(job) in d.started)
            && (DbDone(k) && k.pass.status.migration != Some(job) ==> Migration(job) in d.started)
  {
    var h := Syncing(k);
    FromSyncKeeps(h);
    assert h == k.(acHeld := h.acHeld, started := h.started, pass := k.pass.(stage := HeldAC));
  }

  /** The ways in which an uninterrupted pass ends. */
  lemma PassEnds(c: Cluster)
    requires CanPass(c)
    ensures var d, p := FullPass(c), Prepared(c);
            && d.inp == c.inp && d.finished == c.finished && c.started <= d.started && d.config == Rendering(c.inp)
            && d.deleting == c.deleting && d.gone == c.gone && d.pass.Idle?
            && d.status.input == Some(Rendering(c.inp))
            && (d.subs == p.subs || d.subs == AllWritten(p.subs, c.inp, p.config))
  {
    PreparedIs(c);
    if StopsAtHash(c) {
    } else {
      FromHashKeeps(Next(Prepared(c), HashKept));
    }
  }

  /** A pass renders the config of its inputs and ends with that config's hash recorded. */
  lemma PassRecords(c: Cluster)
    requires Quiet(c)
    ensures FullPass(c).inp == c.inp && Recorded(FullPass(c))
    ensures FullPass(c).finished == c.finished && c.started <= FullPass(c).started
  {
    PassEnds(c);
  }

  /** A pass over a recorded hash creates the job that is missing. */
  lemma PassStarts(c: Cluster)
    requires Quiet(c) && Recorded(c)
    ensures var d, db, mig := FullPass(c), DbSync(c.inp.job), Migration(c.inp.job);
            && (JobLeft(c, db) == 2 ==> JobLeft(d, db) == 1)
            && (JobLeft(c, db) == 0 && JobLeft(c, mig) == 2 ==> JobLeft(d, mig) == 1)
  {
    PreparedIs(c);
    PassEnds(c);
    FromHashKeeps(Next(Prepared(c), HashKept));
  }

  /** A pass writes all of its input into the config, and stops at the changed hash exactly when some of it changed
      since the hash was recorded. */
  lemma EditIsSeen(c: Cluster, inp: Inputs)
    requires Quiet(c) && Recorded(c) && CanPass(c.(inp := inp))
    ensures var e := c.(inp := inp);
            && (StopsAtHash(e) <==>
                  inp.t != c.inp.t || inp.rest != c.inp.rest || BusSecret(inp.bus) != BusSecret(c.inp.bus))
            && FullPass(e).config.t == inp.t && FullPass(e).config.rest == inp.rest
            && (inp.bus.Published? ==> FullPass(e).config.n == inp.bus.secret)
            && (inp.bus.Disabled? ==> FullPass(e).config.n == NoSecret)
  {
    var e := c.(inp := inp);
    PreparedIs(e);
    PassEnds(e);
  }

  lemma CompletesWhenDone(c: Cluster)
    requires Quiet(c) && Recorded(c) && Outstanding(c) == 0
    ensures Completes(c)
  {
  }

  /** What a completing pass leaves behind. */
  lemma CompletingPass(c: Cluster)
    requires Inv(c) && CanPass(c) && Completes(c)
    ensures var d, p := FullPass(c), Prepared(c);
            && d.subs == AllWritten(p.subs, c.inp, p.config)
            && (AllOpen(d.subs, c.inp) || Rotated(c) ==> Rotated(d))
  {
    PreparedIs(c);
    DeployedIs(c);
    ClosingRotates(AllDeployed(c));
  }

  /** The in-memory status already tracks what the pass deploys. */
  predicate TracksCurrent(b: Cluster)
    requires b.pass.Active?
  {
    && b.pass.status.t == b.inp.t && Tracked(b.pass.status.n) == BusSecret(b.inp.bus) && b.pass.status.ac == b.inp.ac
    && (b.inp.bus.Published? ==> b.pass.status.n.Some?)
  }

  /** A pass that holds its own secrets and has every gate open, or nothing to release. */
  predicate Closing(b: Cluster) {
    && b.pass.Active? && (b.pass.ready || TracksCurrent(b)) && b.pass.inp == b.inp
    && NoSecret !in b.held && NoSecret !in b.acHeld
    && b.pass.status.dbSync == Some(b.inp.job) && b.pass.status.migration == Some(b.inp.job)
    && b.inp.t in b.held && (BusSecret(b.inp.bus) == NoSecret || BusSecret(b.inp.bus) in b.held)
    && (b.inp.ac == NoSecret || b.inp.ac in b.acHeld)
    && MessagingName(b.pass.status.t) && b.inp.t.Messaging?
    && NotificationsName(Tracked(b.pass.status.n)) && NotificationsName(BusSecret(b.inp.bus))
  }

  lemma ClosingT(b: Cluster)
    requires Closing(b)
    ensures var d := ParentReleaseT(b); Closing(d) && d.pass.status.t == d.inp.t && d.inp == b.inp
  {
  }

  lemma ClosingN(b: Cluster)
    requires Closing(b) && b.pass.status.t == b.inp.t
    ensures var d := ParentReleaseN(b);
            && Closing(d) && d.pass.status.t == d.inp.t && Tracked(d.pass.status.n) == BusSecret(d.inp.bus)
            && (d.inp.bus.Published? ==> d.pass.status.n.Some?) && d.inp == b.inp
  {
  }

  lemma ClosingAll(b: Cluster)
    requires Closing(b) && b.pass.status.t == b.inp.t && Tracked(b.pass.status.n) == BusSecret(b.inp.bus)
    requires b.inp.bus.Published? ==> b.pass.status.n.Some?
    ensures Rotated(ParentComplete(ParentPrune(ParentReleaseAC(b))))
  {
    var d := ParentComplete(ParentPrune(ParentReleaseAC(b)));
    assert d.held == {b.inp.t, BusSecret(b.inp.bus)} - {NoSecret};
    assert d.acHeld == {b.inp.ac} - {NoSecret};
  }

  lemma ClosingRotates(b: Cluster)
    requires b.pass.Active? && (b.pass.ready || TracksCurrent(b) ==> Closing(b))
    ensures Finishing(b).subs == b.subs
    ensures b.pass.ready || TracksCurrent(b) ==> Rotated(Finishing(b))
  {
    if b.pass.ready || TracksCurrent(b) {
      var b1 := ParentReleaseT(Next(b, Swept));
      assert Closing(Next(b, Swept));
      ClosingT(Next(b, Swept));
      ClosingN(b1);
      ClosingAll(ParentReleaseN(b1));
    }
  }

  // ---------------------------------------------------------------- every move

  lemma LeadsKeepsInv(c: Cluster, d: Cluster)
    requires Inv(c) && Leads(c, d)
    ensures Inv(d)
  {
    var es: seq<Event> :| Legal(c, es) && Run(c, es) == d && Own(es);
    RunKeepsInv(c, es);
  }

  /** A step on one sub-CR, seen from a state that differs from `c` in that sub-CR only. */
  lemma SubChain(c: Cluster, s: Service, sub: Sub, e: Event, r: Sub)
    requires IsSub(e) && e.s == s
    requires SubEnabled(OnSub(c, s, sub), e) && SubStep(OnSub(c, s, sub), e) == r
    ensures Leads(OnSub(c, s, sub), OnSub(c, s, r))
  {
    var b := OnSub(c, s, sub);
    assert OnSub(b, s, r) == OnSub(c, s, r);
    SubLeads(b, e, OnSub(c, s, r));
  }

  lemma SubPassDeploys(c: Cluster, s: Service)
    requires s in c.subs && c.subs[s].work.Resting? && c.subs[s].registered
    ensures Leads(c, OnSub(c, s, SubApply(SubRead(SubStart(c.subs[s]), c.config))))
  {
    var s1 := SubStart(c.subs[s]);
    var s2 := SubRead(s1, c.config);
    var s3 := SubApply(s2);
    assert OnSub(c, s, c.subs[s]) == c;
    SubChain(c, s, c.subs[s], SubBegin(s), s1);
    SubChain(c, s, s1, SubLoad(s), s2);
    SubChain(c, s, s2, SubDeploy(s), s3);
    LeadsTrans(c, OnSub(c, s, s1), OnSub(c, s, s2));
    LeadsTrans(c, OnSub(c, s, s2), OnSub(c, s, s3));
  }

  /** A sub pass that returns at once. */
  lemma QuitIsARun(c: Cluster, s: Service)
    requires s in c.subs && c.subs[s].work.Resting?
    ensures Leads(c, OnSub(c, s, SubQuit(SubStart(c.subs[s]))))
  {
    var sub := c.subs[s];
    var s1, r := SubStart(sub), SubQuit(SubStart(sub));
    assert OnSub(c, s, sub) == c;
    SubChain(c, s, sub, SubBegin(s), s1);
    SubChain(c, s, s1, SubStop(s), r);
    LeadsTrans(c, OnSub(c, s, s1), OnSub(c, s, r));
  }

  lemma RegisteredPassIsARun(c: Cluster, s: Service)
    requires s in c.subs && c.subs[s].work.Resting? && c.subs[s].registered
    ensures Leads(c, OnSub(c, s, SubPass(c.subs[s], c.config)))
  {
    var s3 := SubApply(SubRead(SubStart(c.subs[s]), c.config));
    var up := s3.pods == {s3.template.value};
    SubChain(c, s, s3, SubFinish(s, if up then s3.spec.replicas else s3.count, up), SubPass(c.subs[s], c.config));
    SubPassDeploys(c, s);
    LeadsTrans(c, OnSub(c, s, s3), OnSub(c, s, SubPass(c.subs[s], c.config)));
  }

  /** A sub pass and a rollout are runs of atomic steps. */
  lemma SubPassIsARun(c: Cluster, s: Service)
    requires s in c.subs && c.subs[s].work.Resting?
    ensures Leads(c, OnSub(c, s, SubPass(c.subs[s], c.config)))
  {
    if c.subs[s].registered {
      RegisteredPassIsARun(c, s);
    } else {
      QuitIsARun(c, s);
    }
  }

  lemma SubLeads(c: Cluster, e: Event, d: Cluster)
    requires IsSub(e) && SubEnabled(c, e) && OnSub(c, e.s, SubStep(c, e)) == d
    ensures Leads(c, d)
  {
    LeadsStep(c, e);
  }

  lemma RollIsARun(c: Cluster, s: Service)
    requires s in c.subs && c.subs[s].template.Some?
    ensures Leads(c, OnSub(c, s, SubRoll(c.subs[s], {c.subs[s].template.value})))
  {
    SubLeads(c, Roll(s, {c.subs[s].template.value}), OnSub(c, s, SubRoll(c.subs[s], {c.subs[s].template.value})));
  }

  lemma MoveKeepsInv(c: Cluster, m: Move, order: seq<Service>)
    requires Quiet(c) && Lists(order, c.inp.services.Keys)
    ensures Inv(Do(c, m))
  {
    match m
    case ParentMove =>
      FullPassIsARun(c, order);
      LeadsKeepsInv(c, FullPass(c));
    case SubMove(s) =>
      if s in c.subs {
        SubPassIsARun(c, s);
        LeadsKeepsInv(c, Do(c, m));
      }
    case RollMove(s) =>
      if s in c.subs && c.subs[s].template.Some? {
        RollIsARun(c, s);
        LeadsKeepsInv(c, Do(c, m));
      }
    case JobMove(job) =>
      if job in c.started { StepKeepsInv(c, FinishJob(job)); }
  }

  lemma PassKeepsQuiet(c: Cluster)
    requires Quiet(c)
    ensures var d := FullPass(c);
            CanPass(d) && d.inp == c.inp && forall s <- d.subs :: d.subs[s].work.Resting?
  {
    PassEnds(c);
    PreparedRests(c);
  }

  lemma PreparedRests(c: Cluster)
    requires Quiet(c)
    ensures var p := Prepared(c);
            && (forall s <- p.subs :: p.subs[s].work.Resting?)
            && (forall s <- AllWritten(p.subs, c.inp, p.config) :: AllWritten(p.subs, c.inp, p.config)[s].work.Resting?)
  {
  }

  lemma MoveKeepsQuiet(c: Cluster, m: Move, order: seq<Service>)
    requires Quiet(c) && Lists(order, c.inp.services.Keys)
    ensures Quiet(Do(c, m)) && Do(c, m).inp == c.inp
  {
    MoveKeepsInv(c, m, order);
    if m == ParentMove { PassKeepsQuiet(c); }
  }

  // ---------------------------------------------------------------- the measure goes down

  /** No part of the measure ever goes up. */
  predicate NoWorse(c: Cluster, d: Cluster) {
    && d.inp == c.inp && Recorded(d) && c.started <= d.started && c.finished <= d.finished && (Rotated(c) ==>
        Rotated(d))
    && (forall s <- c.inp.services :: Weight(d, s) <= Weight(c, s))
  }

  lemma PassSubs(c: Cluster)
    requires Quiet(c) && Recorded(c)
    ensures FullPass(c).subs == if Completes(c) then AllWritten(c.subs, c.inp, c.config) else c.subs
    ensures Outstanding(c) == 0 || Rotated(c) ==> Completes(c)
  {
    PreparedKeepsSubs(c);
    if Completes(c) { CompletingPass(c); }
  }

  lemma WrittenWeights(c: Cluster, d: Cluster)
    requires d.inp == c.inp && d.subs == AllWritten(c.subs, c.inp, c.config)
    ensures forall s <- c.inp.services :: if Weight(c, s) == 5 then Weight(d, s) < 5 else Weight(d, s) == Weight(c, s)
    ensures (forall s <- c.inp.services :: Weight(c, s) == 0) ==> AllOpen(d.subs, c.inp)
  {
  }

  lemma SameWeights(c: Cluster, d: Cluster)
    requires d.inp == c.inp && d.subs == c.subs
    ensures forall s: Service :: Weight(d, s) == Weight(c, s)
  {
  }

  lemma WeightsAfter(c: Cluster, d: Cluster)
    requires d.inp == c.inp && (d.subs == c.subs || d.subs == AllWritten(c.subs, c.inp, c.config))
    ensures forall s <- c.inp.services :: Weight(d, s) <= Weight(c, s)
    ensures d.subs == AllWritten(c.subs, c.inp, c.config) ==> forall s <- c.inp.services :: Weight(d, s) < 5
  {
    if d.subs == AllWritten(c.subs, c.inp, c.config) { WrittenWeights(c, d); } else { SameWeights(c, d); }
  }

  lemma PassWeights(c: Cluster)
    requires Quiet(c) && Recorded(c)
    ensures var d := FullPass(c);
            && (forall s <- c.inp.services :: Weight(d, s) <= Weight(c, s))
            && (Outstanding(c) == 0 ==> forall s <- c.inp.services :: Weight(d, s) < 5)
  {
    PassRecords(c);
    PassSubs(c);
    WeightsAfter(c, FullPass(c));
  }

  lemma PassRotates(c: Cluster)
    requires Quiet(c) && Recorded(c)
    requires Rotated(c) || (Outstanding(c) == 0 && forall s <- c.inp.services :: Weight(c, s) == 0)
    ensures Rotated(FullPass(c))
  {
    PassRecords(c);
    PassSubs(c);
    CompletingPass(c);
    WrittenWeights(c, FullPass(c));
  }

  lemma ParentNoWorse(c: Cluster)
    requires Quiet(c) && Recorded(c)
    ensures NoWorse(c, FullPass(c))
  {
    PassRecords(c);
    PassWeights(c);
    if Rotated(c) { PassRotates(c); }
  }

  lemma SubMoveWeight(c: Cluster, s: Service)
    requires Quiet(c) && Recorded(c)
    ensures var d := Do(c, SubMove(s));
            && (forall x <- c.inp.services :: Weight(d, x) <= Weight(c, x))
            && (s in c.inp.services && (Weight(c, s) == 4 || Weight(c, s) == 3 || Weight(c, s) == 1) ==>
                Weight(d, s) < Weight(c, s))
  {
  }

  lemma RollMoveWeight(c: Cluster, s: Service)
    requires Quiet(c) && Recorded(c)
    ensures var d := Do(c, RollMove(s));
            && (forall x <- c.inp.services :: Weight(d, x) <= Weight(c, x))
            && (s in c.inp.services && Weight(c, s) == 2 ==> Weight(d, s) < 2)
  {
  }

  lemma MoveNoWorse(c: Cluster, m: Move)
    requires Quiet(c) && Recorded(c)
    ensures NoWorse(c, Do(c, m))
  {
    match m
    case ParentMove => ParentNoWorse(c);
    case SubMove(s) => SubMoveWeight(c, s);
    case RollMove(s) => RollMoveWeight(c, s);
    case JobMove(job) =>
  }

  /** Parts that never go up add up to a measure that stays the same only when every part does. */
  lemma MeasureOfParts(c: Cluster, d: Cluster, order: seq<Service>)
    requires Recorded(c) && NoWorse(c, d) && Lists(order, c.inp.services.Keys)
    ensures Measure(d, order) <= Measure(c, order)
    ensures Measure(d, order) < Measure(c, order) || SameParts(c, d)
  {
    TotalMono(c, d, order);
    assert Outstanding(d) <= Outstanding(c);
    if Measure(d, order) == Measure(c, order) {
      forall s <- c.inp.services ensures Weight(c, s) == Weight(d, s) { assert s in order; }
    }
  }

  lemma MoveLowers(c: Cluster, m: Move, order: seq<Service>)
    requires Quiet(c) && Lists(order, c.inp.services.Keys)
    ensures Measure(Do(c, m), order) <= Measure(c, order)
    ensures Measure(Do(c, m), order) < Measure(c, order) || SameParts(c, Do(c, m))
  {
    var d := Do(c, m);
    MoveKeepsQuiet(c, m, order);
    TotalBound(d, order);
    if Recorded(c) {
      MoveNoWorse(c, m);
      MeasureOfParts(c, d, order);
    } else if m == ParentMove {
      PassRecords(c);
    }
  }

  /** A helpful move never leaves every part of the measure as it was. */
  lemma HelpfulMoveChanges(c: Cluster, m: Move)
    requires Quiet(c) && Helps(c, m)
    ensures !SameParts(c, Do(c, m))
  {
    var d := Do(c, m);
    if !Recorded(c) {
      PassRecords(c);
    } else if Outstanding(c) > 0 {
      if m == ParentMove { PassStarts(c); }
    } else if exists s <- c.inp.services :: Weight(c, s) == 5 {
      PassWeights(c);
    } else if exists s <- c.inp.services :: Weight(c, s) > 0 {
      if m.SubMove? { SubMoveWeight(c, m.s); } else { RollMoveWeight(c, m.s); }
    } else {
      PassRotates(c);
    }
  }

  lemma SamePartsSameHelp(c: Cluster, d: Cluster, m: Move)
    requires SameParts(c, d) && Helps(c, m)
    ensures Helps(d, m)
  {
  }

  // ---------------------------------------------------------------- schedules

  function Play(c: Cluster, ms: seq<Move>, order: seq<Service>): (d: Cluster)
    requires Quiet(c) && Lists(order, c.inp.services.Keys)
    decreases |ms|
    ensures Quiet(d) && d.inp == c.inp
  {
    if ms == [] then c else
      MoveKeepsQuiet(c, ms[0], order);
      Play(Do(c, ms[0]), ms[1..], order)
  }

  /** Every move that may be needed occurs, in any order and any number of times. */
  predicate Fair(ms: seq<Move>, inp: Inputs) {
    && ParentMove in ms && JobMove(DbSync(inp.job)) in ms && JobMove(Migration(inp.job)) in ms
    && (forall s <- inp.services :: SubMove(s) in ms && RollMove(s) in ms)
  }

  lemma {:induction false} PlayNoWorse(c: Cluster, ms: seq<Move>, order: seq<Service>)
    requires Quiet(c) && Lists(order, c.inp.services.Keys)
    ensures Measure(Play(c, ms, order), order) <= Measure(c, order)
    decreases |ms|
  {
    if ms != [] {
      MoveKeepsQuiet(c, ms[0], order);
      MoveLowers(c, ms[0], order);
      PlayNoWorse(Do(c, ms[0]), ms[1..], order);
    }
  }

  /** A helpful move stays helpful until the measure has gone down. */
  lemma {:induction false} HelpArrives(c: Cluster, ms: seq<Move>, m: Move, order: seq<Service>)
    requires Quiet(c) && Lists(order, c.inp.services.Keys) && Helps(c, m) && m in ms
    ensures Measure(Play(c, ms, order), order) < Measure(c, order)
    decreases |ms|
  {
    var d := Do(c, ms[0]);
    MoveKeepsQuiet(c, ms[0], order);
    MoveLowers(c, ms[0], order);
    if !SameParts(c, d) {
      PlayNoWorse(d, ms[1..], order);
    } else {
      if ms[0] == m { HelpfulMoveChanges(c, m); }
      SamePartsSameHelp(c, d, m);
      HelpArrives(d, ms[1..], m, order);
    }
  }

  /** How often a schedule stops at a changed hash. */
  function HashStops(c: Cluster, ms: seq<Move>, order: seq<Service>): (n: nat)
    requires Quiet(c) && Lists(order, c.inp.services.Keys)
    decreases |ms|
  {
    if ms == [] then 0 else
      MoveKeepsQuiet(c, ms[0], order);
      (if ms[0] == ParentMove && StopsAtHash(c) then 1 else 0) + HashStops(Do(c, ms[0]), ms[1..], order)
  }

  /** With the inputs fixed, the hash-changed stop happens at most once in every schedule, and not at all once the
      hash is recorded. */
  lemma {:induction false} HashStopsOnce(c: Cluster, ms: seq<Move>, order: seq<Service>)
    requires Quiet(c) && Lists(order, c.inp.services.Keys)
    ensures HashStops(c, ms, order) <= if Recorded(c) then 0 else 1
    decreases |ms|
  {
    if ms != [] {
      var d := Do(c, ms[0]);
      MoveKeepsQuiet(c, ms[0], order);
      if Recorded(c) {
        PreparedKeepsSubs(c);
        MoveNoWorse(c, ms[0]);
      } else if ms[0] == ParentMove {
        PassRecords(c);
      }
      HashStopsOnce(d, ms[1..], order);
    }
  }

  /** While the state has not converged, a fair schedule contains a helpful move. */
  lemma SomethingHelps(c: Cluster, ms: seq<Move>) returns (m: Move)
    requires Quiet(c) && !Converged(c) && Fair(ms, c.inp)
    ensures Helps(c, m) && m in ms
  {
    if !Recorded(c) {
      m := ParentMove;
    } else if Outstanding(c) > 0 {
      var job := if JobLeft(c, DbSync(c.inp.job)) > 0 then DbSync(c.inp.job) else Migration(c.inp.job);
      m := if JobLeft(c, job) == 2 then ParentMove else JobMove(job);
    } else if exists s <- c.inp.services :: Weight(c, s) == 5 {
      m := ParentMove;
    } else if exists s <- c.inp.services :: Weight(c, s) > 0 {
      var s :| s in c.inp.services && Weight(c, s) > 0;
      m := if Weight(c, s) == 2 then RollMove(s) else SubMove(s);
    } else {
      m := ParentMove;
    }
  }

  lemma {:induction false} TotalZero(c: Cluster, order: seq<Service>)
    ensures Total(c, order) == 0 <==> forall s <- order :: Weight(c, s) == 0
  {
    if order != [] { TotalZero(c, order[1..]); }
  }

  lemma MeasureZero(c: Cluster, order: seq<Service>)
    requires Lists(order, c.inp.services.Keys)
    ensures Measure(c, order) == 0 <==> Converged(c)
  {
    TotalZero(c, order);
    if Measure(c, order) == 0 {
      forall s <- c.inp.services ensures Weight(c, s) == 0 { assert s in order; }
    }
  }

  function PlayAll(c: Cluster, rounds: seq<seq<Move>>, order: seq<Service>): (d: Cluster)
    requires Quiet(c) && Lists(order, c.inp.services.Keys)
    decreases |rounds|
    ensures Quiet(d) && d.inp == c.inp
  {
    if rounds == [] then c else PlayAll(Play(c, rounds[0], order), rounds[1..], order)
  }

  /** Convergence: with the inputs fixed, as many fair rounds as the measure says, in any order of moves, close
      the rotation. */
  lemma {:induction false} FairRoundsConverge(c: Cluster, rounds: seq<seq<Move>>, order: seq<Service>)
    requires Quiet(c) && Lists(order, c.inp.services.Keys)
    requires forall r <- rounds :: Fair(r, c.inp)
    requires |rounds| >= Measure(c, order)
    ensures Converged(PlayAll(c, rounds, order))
    decreases |rounds|
  {
    MeasureZero(c, order);
    if rounds != [] {
      var d := Play(c, rounds[0], order);
      if Converged(c) {
        PlayNoWorse(c, rounds[0], order);
      } else {
        var m := SomethingHelps(c, rounds[0]);
        HelpArrives(c, rounds[0], m, order);
      }
      FairRoundsConverge(d, rounds[1..], order);
    }
  }

  /** 5 rounds for each service and 6 more are always enough. */
  lemma RoundsNeeded(c: Cluster, order: seq<Service>)
    ensures Measure(c, order) <= 5 * |order| + 6
  {
    TotalBound(c, order);
  }

  lemma FinishingFixed(w: Cluster)
    requires w.pass.Active? && TracksCurrent(w) && w.pass.inp == w.inp
    requires w.held == {w.inp.t, BusSecret(w.inp.bus)} - {NoSecret} && w.acHeld == {w.inp.ac} - {NoSecret}
    ensures Finishing(w) == w.(status := w.pass.status, pass := Idle)
  {
  }

  /** What convergence means, field by field: all of the input has arrived everywhere. The config in place holds the
      published secrets and the rest of the input; every service has the replicas and the revision that the spec asks
      for, all its pods run that config under those secrets, and it has reported all replicas ready; the jobs of the
      current definition are recorded; exactly the published secrets are held. */
  lemma ConvergedMeans(c: Cluster, s: Service)
    requires Converged(c) && s in c.inp.services
    ensures var n := if c.inp.bus.Published? then c.inp.bus.secret else NoSecret;
            var pair, cfg := Pair(c.inp.t, n), Config(c.inp.t, n, c.inp.rest);
            && c.config == cfg && c.status.input == Some(cfg)
            && s in c.subs && c.subs[s].spec == SubSpec(pair, c.inp.services[s], c.inp.rev)
            && c.subs[s].pods == {Template(pair, cfg)} && c.subs[s].template == Some(Template(pair, cfg))
            && c.subs[s].applied == pair && c.subs[s].count == c.inp.services[s] && c.subs[s].deployed == True
            && c.subs[s].obs == c.subs[s].gen
            && c.status.dbSync == Some(c.inp.job) && c.status.migration == Some(c.inp.job)
            && c.status.t == c.inp.t && Tracked(c.status.n) == n && c.status.ac == c.inp.ac
            && c.held == {c.inp.t, n} - {NoSecret} && c.acHeld == {c.inp.ac} - {NoSecret}
  {
    assert Weight(c, s) == 0;
  }

  /** The converged state is a fixpoint of the parent's pass: not even a status field changes. */
  lemma Fixpoint(c: Cluster)
    requires Quiet(c) && Converged(c)
    ensures FullPass(c) == c
  {
    CompletesWhenDone(c);
    PreparedIs(c);
    PreparedKeepsSubs(c);
    DeployedIs(c);
    AllWrittenFixed(c);
    FinishingFixed(AllDeployed(c));
  }

  lemma AllWrittenFixed(c: Cluster)
    requires Converged(c)
    ensures AllWritten(c.subs, c.inp, c.config) == c.subs
  {
    assert forall s <- c.inp.services :: Weight(c, s) == 0;
  }

  /** It is a fixpoint of every pass of a sub-controller and of every rollout of a service of the spec as well. */
  lemma ServiceFixpoint(c: Cluster, s: Service)
    requires Quiet(c) && Converged(c) && s in c.inp.services
    ensures Do(c, SubMove(s)) == c && Do(c, RollMove(s)) == c
  {
    assert Weight(c, s) == 0;
    assert c.subs[s := c.subs[s]] == c.subs;
  }
}
