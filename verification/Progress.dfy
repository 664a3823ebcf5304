/** Nothing is ever stuck: from every state with inputs that can be deployed there is a fair stretch of calm steps, and
    so there is a run that closes the rotation. */
module Progress {
  import opened Common
  import opened Cluster
  import opened Invariant
  import opened Passes
  import opened Convergence
  import opened Fairness

  /** What later parts of a stretch rely on. */
  predicate Keeps(c: Cluster, d: Cluster) {
    && d.inp == c.inp && c.started <= d.started && c.subs.Keys <= d.subs.Keys
    && (forall s <- c.subs :: c.subs[s].template.Some? ==> d.subs[s].template.Some?)
  }

  predicate Stretch(c: Cluster, es: seq<Event>, d: Cluster) {
    Legal(c, es) && CalmRun(c, es) && Run(c, es) == d && Steady(c) && Steady(d) && Keeps(c, d)
  }

  lemma StretchNone(c: Cluster)
    requires Steady(c)
    ensures Stretch(c, [], c)
  {
  }

  lemma StretchOne(c: Cluster, e: Event)
    requires Steady(c) && Enabled(c, e) && Calm(c, e) && Keeps(c, Apply(c, e))
    ensures Stretch(c, [e], Apply(c, e))
    ensures forall k: Kind :: Hits(c, e, k) ==> Occurs(c, [e], k)
  {
    assert [e][1..] == [];
    CalmKeepsInputs(c, e);
    var d := Apply(c, e);
    assert Legal(d, []) && Run(d, []) == d && CalmRun(d, []);
    assert Legal(c, [e]) && Run(c, [e]) == d && CalmRun(c, [e]);
  }

  lemma {:induction false} CalmAppend(c: Cluster, es: seq<Event>, fs: seq<Event>)
    requires Legal(c, es) && CalmRun(c, es) && Legal(Run(c, es), fs) && CalmRun(Run(c, es), fs)
    ensures Legal(c, es + fs) && CalmRun(c, es + fs) && Run(c, es + fs) == Run(Run(c, es), fs)
    ensures forall k: Kind :: Occurs(c, es, k) || Occurs(Run(c, es), fs, k) ==> Occurs(c, es + fs, k)
    decreases |es|
  {
    RunAppend(c, es, fs);
    if es == [] {
      assert es + fs == fs;
    } else {
      CalmAppend(Apply(c, es[0]), es[1..], fs);
      assert (es + fs)[1..] == es[1..] + fs;
    }
  }

  lemma StretchTwo(b: Cluster, es: seq<Event>, c: Cluster, fs: seq<Event>, d: Cluster)
    requires Stretch(b, es, c) && Stretch(c, fs, d)
    ensures Stretch(b, es + fs, d)
    ensures forall k: Kind :: Occurs(b, es, k) || Occurs(c, fs, k) ==> Occurs(b, es + fs, k)
  {
    CalmAppend(b, es, fs);
  }

  // ---------------------------------------------------------------- the parent

  /** The next step of the parent. */
  ghost function NextStep(c: Cluster): (e: Event)
    requires c.pass.Active?
  {
    match c.pass.stage
    case Begun => HoldT
    case HeldT => ReadBus
    case BusRead => if c.pass.inp.bus == Pending then Stop else HoldN
    case Secured => Render
    case Rendered => CheckHash
    case HashKept => HoldAC
    case HeldAC => if DbDone(c) then RunDbSync else if DbSync(c.pass.inp.job) in c.started then Stop else StartDbSync
    case DbSynced =>
      if MigrationDone(c) then RunMigration else if Migration(c.pass.inp.job) in c.started then Stop else StartMigration
    case Writing => if c.pass.todo == {} then Sweep else var s :| s in c.pass.todo; WriteSub(s)
    case Swept => ReleaseT
    case ReleasedT => ReleaseN
    case ReleasedN => ReleaseAC
    case ReleasedAC => Prune
    case Pruned => Complete
  }

  lemma NextIsEnabled(c: Cluster)
    requires c.pass.Active? && !c.gone && c.pass.todo <= c.pass.inp.services.Keys
    ensures ParentEnabled(c, NextStep(c))
  {
    match c.pass.stage
    case Begun => case HeldT => case BusRead => case Secured => case Rendered => case HashKept => case HeldAC =>
    case DbSynced => case Writing => case Swept => case ReleasedT => case ReleasedN => case ReleasedAC => case Pruned =>
  }

  lemma NextIsCalm(c: Cluster)
    requires Steady(c) && c.pass.Active?
    ensures var e := NextStep(c); IsParent(e) && !IsRemoval(e) && ParentEnabled(c, e) && Calm(c, e)
  {
    NextIsEnabled(c);
    CalmNext(c);
  }

  lemma CalmNext(c: Cluster)
    requires c.pass.Active? && c.inp.bus != Pending
    ensures var e := NextStep(c); IsParent(e) && !IsRemoval(e) && Calm(c, e)
  {
    match c.pass.stage
    case Begun => case HeldT => case BusRead => case Secured => case Rendered => case HashKept => case HeldAC =>
    case DbSynced => case Writing => case Swept => case ReleasedT => case ReleasedN => case ReleasedAC => case Pruned =>
  }

  lemma ParentKeepsMore(c: Cluster, e: Event)
    requires ParentEnabled(c, e) && IsParent(e) && !IsRemoval(e)
    ensures Keeps(c, ParentApply(c, e))
  {
    ParentLeaves(c, e);
    if !e.WriteSub? { OtherParentRanks(c, e); }
  }

  /** How many steps a pass has before it, at most, counted by stages; the two jobs and the services count extra. */
  function Left(c: Cluster): (n: nat)
    requires c.pass.Active?
  {
    14 - Rank(c.pass.stage)
  }

  function JobsToStart(c: Cluster): (n: nat)
    requires c.pass.Active?
  {
    (if DbSync(c.pass.inp.job) in c.started then 0 else 1) + (if Migration(c.pass.inp.job) in c.started then 0 else 1)
  }

  /** One step nearer to the end of the pass. */
  predicate Nearer(c: Cluster, d: Cluster)
    requires c.pass.Active?
  {
    || d.pass.Idle?
    || (d.pass.Active? && Left(d) < Left(c))
    || (d.pass.Active? && Left(d) == Left(c) && |d.pass.todo| < |c.pass.todo|)
    || (d.pass.Active? && Left(d) == Left(c) && d.pass.todo == c.pass.todo && JobsToStart(d) < JobsToStart(c))
  }

  lemma EarlyAdvances(c: Cluster)
    requires c.pass.Active? && ParentEnabled(c, NextStep(c)) && Rank(c.pass.stage) <= 5
    ensures Nearer(c, ParentApply(c, NextStep(c)))
  {
    match c.pass.stage
    case Begun => case HeldT => case BusRead => case Secured => case Rendered => case HashKept =>
  }

  lemma LateAdvances(c: Cluster)
    requires c.pass.Active? && ParentEnabled(c, NextStep(c)) && Rank(c.pass.stage) >= 9
    ensures Nearer(c, ParentApply(c, NextStep(c)))
  {
    match c.pass.stage
    case Swept => case ReleasedT => case ReleasedN => case ReleasedAC => case Pruned =>
  }

  lemma JobAdvances(c: Cluster)
    requires c.pass.Active? && ParentEnabled(c, NextStep(c)) && (At(c, HeldAC) || At(c, DbSynced))
    ensures Nearer(c, ParentApply(c, NextStep(c)))
  {
  }

  lemma WritingAdvances(c: Cluster)
    requires c.pass.Active? && ParentEnabled(c, NextStep(c)) && At(c, Writing)
    ensures Nearer(c, ParentApply(c, NextStep(c)))
  {
  }

  lemma NextIsNearer(c: Cluster)
    requires Steady(c) && c.pass.Active? && ParentEnabled(c, NextStep(c))
    ensures Nearer(c, ParentApply(c, NextStep(c)))
  {
    if At(c, HeldAC) || At(c, DbSynced) {
      JobAdvances(c);
    } else if At(c, Writing) {
      WritingAdvances(c);
    } else if Rank(c.pass.stage) <= 5 {
      EarlyAdvances(c);
    } else {
      LateAdvances(c);
    }
  }

  lemma NextEnds(c: Cluster)
    requires Steady(c) && c.pass.Active? && ParentEnabled(c, NextStep(c)) && ParentApply(c, NextStep(c)).pass.Idle?
    ensures EndsPass(c, NextStep(c))
  {
  }

  /** The parent can always finish the pass under way. */
  lemma {:induction false} ToPassEnd(c: Cluster) returns (es: seq<Event>, d: Cluster)
    requires Steady(c) && c.pass.Active?
    ensures Stretch(c, es, d) && Occurs(c, es, PassEnd)
    decreases Left(c), |c.pass.todo|, JobsToStart(c)
  {
    var e := NextStep(c);
    NextIsCalm(c);
    ParentKeepsMore(c, e);
    StretchOne(c, e);
    d := ParentApply(c, e);
    es := [e];
    NextIsNearer(c);
    if d.pass.Idle? {
      NextEnds(c);
      assert Hits(c, e, PassEnd);
    } else {
      var fs, b := ToPassEnd(d);
      StretchTwo(c, es, d, fs, b);
      es, d := es + fs, b;
    }
  }

  lemma PassCanEnd(c: Cluster) returns (es: seq<Event>, d: Cluster)
    requires Steady(c)
    ensures Stretch(c, es, d) && Occurs(c, es, PassEnd)
  {
    if c.pass.Active? {
      es, d := ToPassEnd(c);
    } else {
      ParentKeepsMore(c, Begin);
      StretchOne(c, Begin);
      var b := ParentBegin(c);
      var fs, f := ToPassEnd(b);
      StretchTwo(c, [Begin], b, fs, f);
      es, d := [Begin] + fs, f;
    }
  }

  // ---------------------------------------------------------------- jobs and services

  lemma JobCanEnd(c: Cluster, job: Job) returns (es: seq<Event>, d: Cluster)
    requires Steady(c)
    ensures Stretch(c, es, d) && (job in c.started ==> Occurs(c, es, JobEnds(job)))
  {
    if job in c.started {
      StretchOne(c, FinishJob(job));
      assert Hits(c, FinishJob(job), JobEnds(job));
      es, d := [FinishJob(job)], EnvApply(c, FinishJob(job));
    } else {
      StretchNone(c);
      es, d := [], c;
    }
  }

  /** The next step of a sub-controller, reporting what is the case. A pass over a new sub-CR returns. */
  function NextSubStep(s: Service, sub: Sub): (e: Event) {
    match sub.work
    case Resting => SubBegin(s)
    case Started(_, _) => if sub.registered then SubLoad(s) else SubStop(s)
    case Loaded(_, _, _) => SubDeploy(s)
    case Deployed(_, pair, cfg) => var up := sub.pods == {Template(pair, cfg)}; SubFinish(s, sub.spec.replicas, up)
  }

  lemma SubStretch(c: Cluster, s: Service, e: Event)
    requires Steady(c) && s in c.subs && IsSub(e) && e.s == s && SubEnabled(c, e) && Calm(c, e)
    ensures var d := OnSub(c, s, SubStep(c, e));
            Stretch(c, [e], d) && (forall k: Kind :: Hits(c, e, k) ==> Occurs(c, [e], k))
  {
    StretchOne(c, e);
  }

  function WorkLeft(sub: Sub): (n: nat) {
    match sub.work
    case Resting => 0
    case Started(_, _) => 3
    case Loaded(_, _, _) => 2
    case Deployed(_, _, _) => 1
  }

  /** A sub-controller can always finish the pass under way; one that has deployed does so by reporting. */
  lemma {:induction false} ToRest(c: Cluster, s: Service) returns (es: seq<Event>, d: Cluster)
    requires Steady(c) && s in c.subs && s in c.inp.services
    ensures Stretch(c, es, d) && d.subs[s].work.Resting?
    ensures c.subs[s].work.Deployed? ==> Occurs(c, es, Reports(s))
    decreases WorkLeft(c.subs[s])
  {
    if c.subs[s].work.Resting? {
      StretchNone(c);
      es, d := [], c;
    } else {
      var e := NextSubStep(s, c.subs[s]);
      if e.SubStop? { UnregisteredWaits(c, s); }
      SubStretch(c, s, e);
      var b := OnSub(c, s, SubStep(c, e));
      if e.SubFinish? { assert Hits(c, e, Reports(s)); }
      var fs, f := ToRest(b, s);
      StretchTwo(c, [e], b, fs, f);
      es, d := [e] + fs, f;
    }
  }

  /** From rest, a sub-CR gets registered. */
  lemma ToRegister(c: Cluster, s: Service) returns (es: seq<Event>, d: Cluster)
    requires Steady(c) && s in c.subs && s in c.inp.services && c.subs[s].work.Resting?
    ensures Stretch(c, es, d) && s in d.subs && d.subs[s].work.Resting? && d.subs[s].registered
  {
    if c.subs[s].registered {
      StretchNone(c);
      es, d := [], c;
    } else {
      SubStretch(c, s, SubBegin(s));
      var b := OnSub(c, s, SubStart(c.subs[s]));
      d := FirstReturn(b, s);
      StretchTwo(c, [SubBegin(s)], b, [SubStop(s)], d);
      es := [SubBegin(s)] + [SubStop(s)];
    }
  }

  /** The first pass over a sub-CR returns. */
  lemma FirstReturn(c: Cluster, s: Service) returns (d: Cluster)
    requires Steady(c) && s in c.subs && s in c.inp.services && c.subs[s].work.Started? && !c.subs[s].registered
    ensures Stretch(c, [SubStop(s)], d) && s in d.subs && d.subs[s].work.Resting? && d.subs[s].registered
  {
    UnregisteredWaits(c, s);
    SubStretch(c, s, SubStop(s));
    d := OnSub(c, s, SubQuit(c.subs[s]));
  }

  /** A new sub-CR is not done, so that its first pass may return. */
  lemma UnregisteredWaits(c: Cluster, s: Service)
    requires Inv(c) && s in c.subs && !c.subs[s].registered && s in c.inp.services
    ensures ServiceRank(c, s) > 0
  {
    assert SubOk(c.subs[s], c.config);
  }

  /** From rest, a sub-controller can write its StatefulSet. */
  lemma ToDeploy(c: Cluster, s: Service) returns (es: seq<Event>, d: Cluster)
    requires Steady(c) && s in c.subs && s in c.inp.services && c.subs[s].work.Resting? && c.subs[s].registered
    ensures Stretch(c, es, d) && Occurs(c, es, Deploys(s))
    ensures s in d.subs && d.subs[s].work.Deployed? && d.subs[s].template.Some?
  {
    SubStretch(c, s, SubBegin(s));
    var c1 := OnSub(c, s, SubStart(c.subs[s]));
    SubStretch(c1, s, SubLoad(s));
    var c2 := OnSub(c1, s, SubRead(c1.subs[s], c1.config));
    StretchTwo(c, [SubBegin(s)], c1, [SubLoad(s)], c2);
    SubStretch(c2, s, SubDeploy(s));
    assert Hits(c2, SubDeploy(s), Deploys(s));
    d := OnSub(c2, s, SubApply(c2.subs[s]));
    es := [SubBegin(s)] + [SubLoad(s)] + [SubDeploy(s)];
    StretchTwo(c, [SubBegin(s)] + [SubLoad(s)], c2, [SubDeploy(s)], d);
  }

  lemma ToRoll(c: Cluster, s: Service) returns (es: seq<Event>, d: Cluster)
    requires Steady(c) && s in c.subs && s in c.inp.services && c.subs[s].work.Deployed? && c.subs[s].template.Some?
    ensures Stretch(c, es, d) && Occurs(c, es, Rolls(s))
    ensures s in d.subs && d.subs[s].work.Deployed?
  {
    var e := Roll(s, {c.subs[s].template.value});
    SubStretch(c, s, e);
    assert Hits(c, e, Rolls(s));
    es, d := [e], OnSub(c, s, SubStep(c, e));
  }

  lemma ServiceCanMove(c: Cluster, s: Service) returns (es: seq<Event>, d: Cluster)
    requires Steady(c) && s in c.subs && s in c.inp.services
    ensures Stretch(c, es, d) && Occurs(c, es, Deploys(s)) && Occurs(c, es, Rolls(s)) && Occurs(c, es, Reports(s))
  {
    var e0, c0 := ToRest(c, s);
    var f0, c1 := ToRegister(c0, s);
    var e1 := e0 + f0;
    StretchTwo(c, e0, c0, f0, c1);
    var e2, c2 := ToDeploy(c1, s);
    StretchTwo(c, e1, c1, e2, c2);
    var e3, c3 := ToRoll(c2, s);
    StretchTwo(c, e1 + e2, c2, e3, c3);
    var e4, c4 := ToRest(c3, s);
    StretchTwo(c, e1 + e2 + e3, c3, e4, c4);
    es, d := e1 + e2 + e3 + e4, c4;
  }

  predicate AllMove(c: Cluster, es: seq<Event>, ss: set<Service>)
    requires Legal(c, es)
  {
    forall s <- ss :: Occurs(c, es, Deploys(s)) && Occurs(c, es, Rolls(s)) && Occurs(c, es, Reports(s))
  }

  lemma {:induction false} ServicesCanMove(c: Cluster, ss: set<Service>) returns (es: seq<Event>, d: Cluster)
    requires Steady(c) && ss <= c.subs.Keys && ss <= c.inp.services.Keys
    ensures Stretch(c, es, d) && AllMove(c, es, ss)
    decreases |ss|
  {
    if ss == {} {
      StretchNone(c);
      es, d := [], c;
    } else {
      var s :| s in ss;
      var e1, c1 := ServiceCanMove(c, s);
      var e2, c2 := ServicesCanMove(c1, ss - {s});
      StretchTwo(c, e1, c1, e2, c2);
      es, d := e1 + e2, c2;
    }
  }

  // ---------------------------------------------------------------- whole stretches

  /** From every state there is a fair stretch. */
  lemma FairStretchExists(c: Cluster) returns (es: seq<Event>, d: Cluster)
    requires Steady(c)
    ensures Stretch(c, es, d) && FairRun(c, es)
  {
    var e1, c1 := PassCanEnd(c);
    var e2, c2 := JobCanEnd(c1, DbSync(c.inp.job));
    StretchTwo(c, e1, c1, e2, c2);
    var e3, c3 := JobCanEnd(c2, Migration(c.inp.job));
    StretchTwo(c, e1 + e2, c2, e3, c3);
    var ss := c.subs.Keys * c.inp.services.Keys;
    var e4, c4 := ServicesCanMove(c3, ss);
    StretchTwo(c, e1 + e2 + e3, c3, e4, c4);
    es, d := e1 + e2 + e3 + e4, c4;
    assert AllMove(c, es, ss);
  }

  lemma {:induction false} FairRoundsExist(c: Cluster, n: nat) returns (rounds: seq<seq<Event>>)
    requires Steady(c)
    ensures FairRounds(c, rounds) && |rounds| == n
    decreases n
  {
    if n == 0 {
      rounds := [];
    } else {
      var es, d := FairStretchExists(c);
      var rest := FairRoundsExist(d, n - 1);
      rounds := [es] + rest;
      assert rounds[1..] == rest;
    }
  }

  /** No state is stuck: whatever is under way, calm steps can close the rotation. */
  lemma CanAlwaysConverge(c: Cluster, order: seq<Service>)
    requires Steady(c) && Lists(order, c.inp.services.Keys)
    ensures exists rounds :: FairRounds(c, rounds) && Converged(RunAll(c, rounds))
  {
    var rounds := FairRoundsExist(c, 5 * |order| + 8);
    FairStepsConverge(c, rounds, order);
  }
}
