/** Where the promises end: what the code does outside careful runs, for whole families of states. */
module Limits {
  import opened Common
  import opened Cluster
  import opened Invariant
  import opened Passes
  import opened Convergence
  import opened Safety
  import opened Tracking

  predicate Patched(es: seq<Event>) {
    forall e <- es :: !e.Crash?
  }

  predicate Reaching(c: Cluster, es: seq<Event>, d: Cluster, careful: bool) {
    Legal(c, es) && Run(c, es) == d && Patched(es) && (careful ==> CarefulRun(c, es))
  }

  /** Some run, in which every status patch lands, leads from one state to the other. */
  ghost predicate Reaches(c: Cluster, d: Cluster, careful: bool) {
    exists es: seq<Event> :: Reaching(c, es, d, careful)
  }

  lemma {:induction false} CarefulAppend(c: Cluster, es: seq<Event>, fs: seq<Event>)
    requires Legal(c, es) && CarefulRun(c, es) && Legal(Run(c, es), fs) && CarefulRun(Run(c, es), fs)
    ensures Legal(c, es + fs) && CarefulRun(c, es + fs)
    decreases |es|
  {
    RunAppend(c, es, fs);
    if es == [] {
      assert es + fs == fs;
    } else {
      CarefulAppend(Apply(c, es[0]), es[1..], fs);
      assert (es + fs)[1..] == es[1..] + fs;
    }
  }

  lemma ReachesTrans(b: Cluster, c: Cluster, d: Cluster, careful: bool)
    requires Reaches(b, c, careful) && Reaches(c, d, careful)
    ensures Reaches(b, d, careful)
  {
    var es: seq<Event> :| Reaching(b, es, c, careful);
    var fs: seq<Event> :| Reaching(c, fs, d, careful);
    RunAppend(b, es, fs);
    if careful { CarefulAppend(b, es, fs); }
    assert Reaching(b, es + fs, d, careful);
  }

  lemma LeadsReaches(c: Cluster, d: Cluster, careful: bool)
    requires Leads(c, d)
    ensures Reaches(c, d, careful)
  {
    var es: seq<Event> :| Legal(c, es) && Run(c, es) == d && Own(es);
    OwnRunIsCareful(c, es);
    assert Reaching(c, es, d, careful);
  }

  lemma ReachesSelf(c: Cluster, careful: bool)
    ensures Reaches(c, c, careful)
  {
    assert Reaching(c, [], c, careful);
  }

  lemma EnvReaches(c: Cluster, e: Event, careful: bool)
    requires IsEnv(e) && EnvEnabled(c, e) && (careful ==> Careful(c, e))
    ensures Reaches(c, EnvApply(c, e), careful)
  {
    assert [e][1..] == [];
    var d := EnvApply(c, e);
    assert Apply(c, e) == d && Legal(d, []) && Run(d, []) == d && CarefulRun(d, []);
    assert Legal(c, [e]) && Run(c, [e]) == d;
    assert careful ==> CarefulRun(c, [e]);
    assert Reaching(c, [e], d, careful);
  }

  /** A run that ends before a deletion was requested contains no step of one. */
  lemma {:induction false} NotDeleted(c: Cluster, es: seq<Event>)
    requires Inv(c) && Legal(c, es) && Patched(es) && !Run(c, es).deleting
    ensures Orderly(es) && !c.deleting
    decreases |es|
  {
    if es != [] {
      StepKeepsInv(c, es[0]);
      NotDeleted(Apply(c, es[0]), es[1..]);
      DeletingStep(c, es[0]);
    }
  }

  lemma DeletingStep(c: Cluster, e: Event)
    requires Inv(c) && Enabled(c, e) && !Apply(c, e).deleting
    ensures !c.deleting && !IsRemoval(e)
  {
    if !IsEnv(e) && !IsSub(e) {
      ParentLeaves(c, e);
      if IsRemoval(e) { RemovalNeedsRequest(c, e); }
    }
  }

  lemma RemovalNeedsRequest(c: Cluster, e: Event)
    requires Inv(c) && IsRemoval(e) && ParentEnabled(c, e)
    ensures c.deleting
  {
  }

  lemma MoveReaches(c: Cluster, m: Move, order: seq<Service>, careful: bool)
    requires Quiet(c) && Lists(order, c.inp.services.Keys)
    ensures Reaches(c, Do(c, m), careful) && Quiet(Do(c, m)) && Do(c, m).inp == c.inp
  {
    MoveKeepsQuiet(c, m, order);
    match m
    case ParentMove =>
      FullPassIsARun(c, order);
      LeadsReaches(c, Do(c, m), careful);
    case SubMove(s) =>
      if s in c.subs {
        SubPassIsARun(c, s);
        LeadsReaches(c, Do(c, m), careful);
      } else {
        ReachesSelf(c, careful);
      }
    case RollMove(s) =>
      if s in c.subs && c.subs[s].template.Some? {
        RollIsARun(c, s);
        LeadsReaches(c, Do(c, m), careful);
      } else {
        ReachesSelf(c, careful);
      }
    case JobMove(job) =>
      if job in c.started {
        EnvReaches(c, FinishJob(job), careful);
      } else {
        ReachesSelf(c, careful);
      }
  }

  // ---------------------------------------------------------------- the gate and the configs it cannot see

  function PairOf(cfg: Config): (p: Pair) {
    Pair(cfg.t, cfg.n)
  }

  predicate OnPair(sub: Sub, expected: Pair) {
    forall p <- sub.pods :: PairOf(p.cfg) == expected
  }

  ghost function StateAt(c: Cluster, es: seq<Event>, k: nat): (d: Cluster)
    requires Legal(c, es) && k <= |es|
  {
    assert es[..k] + es[k..] == es;
    RunPrefix(c, es[..k], es[k..]);
    Run(c, es[..k])
  }

  lemma SinceStep(b: Cluster, e: Event, s: Service, cfg: Config)
    requires Inv(b) && Enabled(b, e) && s in Apply(b, e).subs && cfg in Apply(b, e).subs[s].since
    ensures var d := Apply(b, e);
            cfg == d.config || (s in b.subs && b.subs[s].gen == d.subs[s].gen && cfg in b.subs[s].since)
  {
    if !IsEnv(e) && !IsSub(e) {
      if e.WriteSub? || e.Render? { WritesSince(b, e, s, cfg); } else { OtherParentSubs(b, e); }
    }
  }

  lemma WritesSince(b: Cluster, e: Event, s: Service, cfg: Config)
    requires (e.WriteSub? || e.Render?) && ParentEnabled(b, e)
    requires s in ParentApply(b, e).subs && cfg in ParentApply(b, e).subs[s].since
    ensures var d := ParentApply(b, e);
            cfg == d.config || (s in b.subs && b.subs[s].gen == d.subs[s].gen && cfg in b.subs[s].since)
  {
    match e
    case WriteSub(_) => case Render =>
  }

  /** The configs that a sub-CR may have picked up were in place in states in which it had its generation. */
  lemma {:induction false} SinceIsHistory(c: Cluster, es: seq<Event>, s: Service, cfg: Config)
    requires Fresh(c) && Legal(c, es) && s in Run(c, es).subs && cfg in Run(c, es).subs[s].since
    ensures exists k :: 0 <= k <= |es| && var b := StateAt(c, es, k);
              b.config == cfg && s in b.subs && b.subs[s].gen == Run(c, es).subs[s].gen
    decreases |es|
  {
    var n := |es| - 1;
    assert es[..|es|] == es;
    if cfg == Run(c, es).config {
      assert StateAt(c, es, |es|).config == cfg;
    } else {
      var fs, e := es[..n], es[n];
      assert es == fs + [e];
      RunLast(c, fs, e);
      SinceStep(Run(c, fs), e, s, cfg);
      SinceIsHistory(c, fs, s, cfg);
      var k :| 0 <= k <= |fs| && var b := StateAt(c, fs, k);
               b.config == cfg && s in b.subs && b.subs[s].gen == Run(c, fs).subs[s].gen;
      assert fs[..k] == es[..k];
      assert StateAt(c, es, k) == StateAt(c, fs, k);
    }
  }

  /** The gate in arbitrary runs: when every config that was in place while the sub-CR had its generation names the
      current secrets, an open gate means that all pods are on them. */
  lemma GateInRuns(c: Cluster, es: seq<Event>, s: Service)
    requires Fresh(c) && Legal(c, es)
    requires var d := Run(c, es);
             && s in d.subs && Gate(d.subs[s], Target(d.inp))
             && forall k :: 0 <= k <= |es| ==>
                  var b := StateAt(c, es, k);
                  s in b.subs && b.subs[s].gen == d.subs[s].gen ==> PairOf(b.config) == Target(d.inp)
    ensures OnPair(Run(c, es).subs[s], Target(Run(c, es).inp))
  {
    var d := Run(c, es);
    FreshInv(c);
    RunKeepsInv(c, es);
    GateSettles(d.subs[s], d.config, Target(d.inp));
    forall p <- d.subs[s].pods ensures PairOf(p.cfg) == Target(d.inp) {
      SinceIsHistory(c, es, s, p.cfg);
    }
  }

  /** The gate of a service is open over a pod that is not on the current secrets. */
  predicate Stranded(d: Cluster, s: Service) {
    s in d.subs && Gate(d.subs[s], Target(d.inp)) && !OnPair(d.subs[s], Target(d.inp))
  }

  /** The sub-controllers, the rollouts and the publishers act; the parent does not. */
  predicate WithoutParent(es: seq<Event>) {
    forall e <- es :: IsSub(e) || e.Publish? || e.SetBus?
  }

  predicate Goes(c: Cluster, es: seq<Event>, d: Cluster) {
    Legal(c, es) && Run(c, es) == d && WithoutParent(es)
  }

  lemma GoOne(b: Cluster, es: seq<Event>, c: Cluster, e: Event)
    requires Goes(b, es, c) && Enabled(c, e) && (IsSub(e) || e.Publish? || e.SetBus?)
    ensures Goes(b, es + [e], Apply(c, e))
  {
    assert [e][1..] == [];
    var d := Apply(c, e);
    assert Legal(d, []) && Run(d, []) == d;
    assert Legal(c, [e]) && Run(c, [e]) == d;
    RunAppend(b, es, [e]);
  }

  lemma GoSub(c: Cluster, s: Service, es: seq<Event>, sub: Sub, e: Event, r: Sub)
    requires Goes(c, es, OnSub(c, s, sub)) && IsSub(e) && e.s == s
    requires SubEnabled(OnSub(c, s, sub), e) && SubStep(OnSub(c, s, sub), e) == r
    ensures Goes(c, es + [e], OnSub(c, s, r))
  {
    GoOne(c, es, OnSub(c, s, sub), e);
    assert OnSub(OnSub(c, s, sub), s, r) == OnSub(c, s, r);
  }

  /** A pass registers a new sub-CR. */
  lemma GoRegister(c: Cluster, s: Service) returns (es: seq<Event>, sub: Sub)
    requires s in c.subs && c.subs[s].work.Resting?
    ensures Goes(c, es, OnSub(c, s, sub)) && sub.registered && sub.work.Resting?
    ensures sub.spec == c.subs[s].spec && sub.gen == c.subs[s].gen
  {
    sub, es := c.subs[s], [];
    assert OnSub(c, s, sub) == c;
    assert Goes(c, [], c);
    if !sub.registered {
      GoSub(c, s, [], sub, SubBegin(s), SubStart(sub));
      GoSub(c, s, [] + [SubBegin(s)], SubStart(sub), SubStop(s), SubQuit(SubStart(sub)));
      sub, es := SubQuit(SubStart(sub)), [] + [SubBegin(s)] + [SubStop(s)];
    }
  }

  /** One more pass, with the rollout before its end, puts all pods on the config in place and reports them under the
      names in the spec. */
  lemma GoDeploy(c: Cluster, s: Service, es: seq<Event>, sub: Sub) returns (fs: seq<Event>, r: Sub)
    requires Goes(c, es, OnSub(c, s, sub)) && sub.registered && sub.work.Resting?
    ensures Goes(c, fs, OnSub(c, s, r)) && r.work.Deployed? && r.work.gen == sub.gen && r.work.pair == sub.spec.pair
    ensures r.spec == sub.spec && r.gen == sub.gen && r.template == Some(Template(sub.spec.pair, c.config))
    ensures r.work.cfg == c.config
  {
    var s1 := SubStart(sub);
    GoSub(c, s, es, sub, SubBegin(s), s1);
    var s2 := SubRead(s1, c.config);
    GoSub(c, s, es + [SubBegin(s)], s1, SubLoad(s), s2);
    r := SubApply(s2);
    GoSub(c, s, es + [SubBegin(s)] + [SubLoad(s)], s2, SubDeploy(s), r);
    fs := es + [SubBegin(s)] + [SubLoad(s)] + [SubDeploy(s)];
  }

  lemma GoReport(c: Cluster, s: Service, es: seq<Event>, sub: Sub) returns (fs: seq<Event>, r: Sub)
    requires Goes(c, es, OnSub(c, s, sub)) && sub.work.Deployed? && sub.work.gen == sub.gen
    requires sub.template == Some(Template(sub.work.pair, sub.work.cfg)) && sub.work.pair == sub.spec.pair
    ensures Goes(c, fs, OnSub(c, s, r)) && Reported(r) && r.spec == sub.spec && r.pods == {sub.template.value}
  {
    var pods := {sub.template.value};
    var s1 := SubRoll(sub, pods);
    GoSub(c, s, es, sub, Roll(s, pods), s1);
    r := SubReport(s1, s1.spec.replicas, true);
    GoSub(c, s, es + [Roll(s, pods)], s1, SubFinish(s, s1.spec.replicas, true), r);
    fs := es + [Roll(s, pods)] + [SubFinish(s, s1.spec.replicas, true)];
  }

  /** The secrets of a sub-CR are published again. */
  lemma GoBack(c: Cluster, es: seq<Event>, d: Cluster, pair: Pair) returns (fs: seq<Event>, f: Cluster)
    requires Goes(c, es, d) && pair.t.Messaging? && NotificationsName(pair.n)
    ensures Goes(c, fs, f) && Target(f.inp) == pair && f.subs == d.subs
  {
    var bus := if pair.n == NoSecret then Disabled else Published(pair.n);
    GoOne(c, es, d, Publish(pair.t));
    var b := EnvApply(d, Publish(pair.t));
    GoOne(c, es + [Publish(pair.t)], b, SetBus(bus));
    fs, f := es + [Publish(pair.t)] + [SetBus(bus)], EnvApply(b, SetBus(bus));
  }

  lemma MisalignedStrands(c: Cluster, s: Service)
    requires Inv(c) && s in c.subs && c.subs[s].work.Resting? && PairOf(c.config) != c.subs[s].spec.pair
    ensures exists es: seq<Event> :: Legal(c, es) && WithoutParent(es) && Stranded(Run(c, es), s)
  {
    assert SubOk(c.subs[s], c.config);
    var e1, s1 := GoRegister(c, s);
    var e2, s2 := GoDeploy(c, s, e1, s1);
    var e3, s3 := GoReport(c, s, e2, s2);
    var es, d := GoBack(c, e3, OnSub(c, s, s3), s3.spec.pair);
    var p := Template(s3.spec.pair, c.config);
    assert p in d.subs[s].pods;
    assert Stranded(d, s);
  }

  /** Everything about a sub-CR is for one pair. */
  predicate SubOn(sub: Sub, pair: Pair) {
    && sub.spec.pair == pair && OnPair(sub, pair)
    && (sub.template.Some? ==> PairOf(sub.template.value.cfg) == pair)
    && (sub.work.Loaded? || sub.work.Deployed? ==> PairOf(sub.work.cfg) == pair)
  }

  /** So is the config in place. */
  predicate AllOn(c: Cluster, s: Service, pair: Pair) {
    PairOf(c.config) == pair && s in c.subs && SubOn(c.subs[s], pair)
  }

  lemma SubOnStep(c: Cluster, e: Event, pair: Pair)
    requires IsSub(e) && SubEnabled(c, e) && AllOn(c, e.s, pair)
    ensures SubOn(SubStep(c, e), pair)
  {
    match e
    case SubBegin(_) => case SubLoad(_) => case SubDeploy(_) => case SubFinish(_, _, _) => case SubStop(_) =>
    case Roll(_, pods) =>
  }

  lemma AllOnStep(c: Cluster, e: Event, s: Service, pair: Pair)
    requires AllOn(c, s, pair) && Enabled(c, e) && (IsSub(e) || e.Publish? || e.SetBus?)
    ensures AllOn(Apply(c, e), s, pair)
  {
    if IsSub(e) && e.s == s { SubOnStep(c, e, pair); }
  }

  lemma {:induction false} AlignedStays(c: Cluster, es: seq<Event>, s: Service, pair: Pair)
    requires Inv(c) && AllOn(c, s, pair) && Legal(c, es) && WithoutParent(es)
    ensures !Stranded(Run(c, es), s)
    decreases |es|
  {
    if es == [] {
      if Gate(c.subs[s], Target(c.inp)) {
        assert SubOk(c.subs[s], c.config);
        GateSettles(c.subs[s], c.config, Target(c.inp));
      }
    } else {
      assert es[0] in es;
      AllOnStep(c, es[0], s, pair);
      StepKeepsInv(c, es[0]);
      AlignedStays(Apply(c, es[0]), es[1..], s, pair);
    }
  }

  /** Exactly when the gate can be fooled, by what can be read off the state. Take a service at rest whose StatefulSet
      and pods are on the secrets that its spec names. Without any step of the parent, the other actors can bring
      about an open gate over pods that are not on the current secrets, if and only if the config in place names
      other secrets than the spec. */
  lemma GateExact(c: Cluster, s: Service)
    requires Inv(c) && s in c.subs && c.subs[s].work.Resting? && OnPair(c.subs[s], c.subs[s].spec.pair)
    requires c.subs[s].template.Some? ==> PairOf(c.subs[s].template.value.cfg) == c.subs[s].spec.pair
    ensures PairOf(c.config) != c.subs[s].spec.pair <==>
              exists es: seq<Event> :: Legal(c, es) && WithoutParent(es) && Stranded(Run(c, es), s)
  {
    if PairOf(c.config) != c.subs[s].spec.pair {
      MisalignedStrands(c, s);
    } else {
      forall es: seq<Event> | Legal(c, es) && WithoutParent(es) ensures !Stranded(Run(c, es), s) {
        AlignedStays(c, es, s, c.subs[s].spec.pair);
      }
    }
  }

  // ---------------------------------------------------------------- A -> B -> A

  function Publishing(c: Cluster, t: Secret): (d: Cluster)
    requires t.Messaging?
  {
    EnvApply(c, Publish(t))
  }

  lemma PublishReaches(c: Cluster, t: Secret, careful: bool)
    requires Quiet(c) && t.Messaging? && (careful ==> c.status.t == c.inp.t)
    ensures Reaches(c, Publishing(c, t), careful) && Quiet(Publishing(c, t))
  {
    EnvReaches(c, Publish(t), careful);
    StepKeepsInv(c, Publish(t));
  }

  /** A pass over other transports than the recorded ones only writes the config. */
  lemma HashStop(c: Cluster)
    requires Quiet(c) && c.status.t != NoSecret && c.status.input != Some(Rendering(c.inp))
    ensures var d := FullPass(c);
            && d.config == Rendering(c.inp) && d.status.input == Some(d.config)
            && d.subs.Keys == c.subs.Keys && d.finished == c.finished && d.started == c.started
            && d.status.t == c.status.t && d.held == Add(Add(c.held, c.inp.t), BusSecret(c.inp.bus))
            && (forall s <- c.subs :: d.subs[s] == c.subs[s].(since := c.subs[s].since + {d.config}))
  {
    PreparedIs(c);
  }

  /** A sub pass, a rollout and a sub pass put the whole service on the config in place and report it under the
      names in the spec. */
  lemma ServiceMoves(c: Cluster, s: Service, order: seq<Service>)
    requires Quiet(c) && Lists(order, c.inp.services.Keys) && s in c.subs && c.subs[s].registered
    ensures var c1 := Do(c, SubMove(s));
            && Quiet(c1) && Quiet(Do(c1, RollMove(s)))
            && var d := Do(Do(c1, RollMove(s)), SubMove(s));
            && Reaches(c, d, false) && Quiet(d) && d == c.(subs := c.subs[s := d.subs[s]])
            && d.subs[s].spec == c.subs[s].spec
            && Reported(d.subs[s]) && d.subs[s].pods == {Template(c.subs[s].spec.pair, c.config)}
  {
    var c1 := Do(c, SubMove(s));
    MoveReaches(c, SubMove(s), order, false);
    var c2 := Do(c1, RollMove(s));
    MoveReaches(c1, RollMove(s), order, false);
    ReachesTrans(c, c1, c2, false);
    var d := Do(c2, SubMove(s));
    MoveReaches(c2, SubMove(s), order, false);
    ReachesTrans(c, c2, d, false);
    assert c1.subs[s].work.Resting? && c1.subs[s].template == Some(Template(c.subs[s].spec.pair, c.config));
    assert SubOk(c.subs[s], c.config);
    assert c.subs[s := d.subs[s]] == d.subs;
  }

  predicate AllReported(c: Cluster) {
    forall s <- c.inp.services :: s in c.subs && c.subs[s].spec == SpecFor(c.inp, s) && Reported(c.subs[s])
  }

  lemma ReportedOpens(c: Cluster, d: Cluster)
    requires AllReported(c) && d.inp == c.inp
    requires d.subs == AllWritten(c.subs, c.inp, c.config)
    ensures AllOpen(d.subs, c.inp) && forall s <- c.inp.services :: d.subs[s] == c.subs[s]
  {
  }

  /** Once every service reports under the names in its spec, two passes close the rotation: whatever the pods run. */
  lemma TwoPassesClose(c: Cluster, order: seq<Service>)
    requires Quiet(c) && Lists(order, c.inp.services.Keys) && AllReported(c)
    requires c.status.t != NoSecret && c.status.input != Some(Rendering(c.inp)) && Outstanding(c) == 0
    ensures var d1 := FullPass(c);
            && Quiet(d1)
            && var d := FullPass(d1);
            && Reaches(c, d, false) && Rotated(d) && d.inp == c.inp && !d.deleting
            && (forall s <- c.inp.services :: s in d.subs && d.subs[s] == c.subs[s].(since := d.subs[s].since))
  {
    var d1 := FullPass(c);
    HashStop(c);
    MoveReaches(c, ParentMove, order, false);
    assert AllReported(d1);
    var d := FullPass(d1);
    MoveReaches(d1, ParentMove, order, false);
    ReachesTrans(c, d1, d, false);
    PassSubs(d1);
    ReportedOpens(d1, d);
    CompletingPass(d1);
  }

  /** Every service of `inp` reports under the names of `inp`, one of them with all its pods on `t`. */
  predicate Astray(d: Cluster, inp: Inputs, s: Service, t: Secret) {
    && d.inp == inp.(t := t) && d.status.t != NoSecret && Outstanding(d) == 0
    && d.status.input == Some(Rendering(d.inp))
    && (forall x <- inp.services :: x in d.subs && d.subs[x].spec == SpecFor(inp, x) && Reported(d.subs[x]))
    && s in d.subs && d.subs[s].pods == {Template(Target(inp), Rendering(d.inp))}
  }

  lemma OnePassAway(c: Cluster, t: Secret, order: seq<Service>) returns (d: Cluster)
    requires Quiet(c) && Converged(c) && Lists(order, c.inp.services.Keys) && t.Messaging? && t != c.inp.t
    ensures Reaches(c, d, false) && Quiet(d) && d.inp == c.inp.(t := t)
    ensures d.config == Rendering(d.inp) && d.status.input == Some(d.config) && d.status.t == c.inp.t
    ensures Outstanding(d) == 0
    ensures forall x <- c.inp.services :: x in d.subs && d.subs[x].spec == SpecFor(c.inp, x) && Reported(d.subs[x])
  {
    var c1 := Publishing(c, t);
    PublishReaches(c, t, false);
    HashStop(c1);
    MoveReaches(c1, ParentMove, order, false);
    d := FullPass(c1);
    ReachesTrans(c, c1, d, false);
    forall x <- c.inp.services ensures x in d.subs && d.subs[x].spec == SpecFor(c.inp, x) && Reported(d.subs[x]) {
      assert Weight(c, x) == 0;
    }
  }

  lemma GoAstray(c: Cluster, s: Service, t: Secret, order: seq<Service>) returns (d: Cluster)
    requires Quiet(c) && Converged(c) && Lists(order, c.inp.services.Keys)
    requires s in c.inp.services && t.Messaging? && t != c.inp.t
    ensures Reaches(c, d, false) && Quiet(d) && Astray(d, c.inp, s, t)
  {
    var b := OnePassAway(c, t, order);
    assert SubOk(b.subs[s], b.config);
    ServiceMoves(b, s, order);
    d := Do(Do(Do(b, SubMove(s)), RollMove(s)), SubMove(s));
    ReachesTrans(c, b, d, false);
  }

  lemma ComeBack(c: Cluster, inp: Inputs, s: Service, t: Secret, order: seq<Service>) returns (d: Cluster)
    requires Quiet(c) && Astray(c, inp, s, t) && Lists(order, inp.services.Keys) && inp.t.Messaging? && t != inp.t
    requires s in inp.services
    ensures Reaches(c, d, false) && Rotated(d) && d.inp == inp && !d.deleting && s in d.subs && Reported(d.subs[s])
    ensures d.subs[s].spec == SpecFor(inp, s) && d.subs[s].pods == c.subs[s].pods
  {
    var b := Publishing(c, inp.t);
    PublishReaches(c, inp.t, false);
    assert b.inp == inp;
    TwoPassesClose(b, order);
    d := FullPass(FullPass(b));
    ReachesTrans(c, b, d, false);
  }

  /** The gate is not sound under a rapid A -> B -> A, and B is then released under running pods. From every
      converged cluster, for every service and every other messaging secret, there is a run, publishing that
      secret and then the first one again before it was tracked, that ends with the gate open, all pods of the
      service on the other secret, and that secret without a finalizer. */
  lemma RapidReturnStrandsPods(c: Cluster, s: Service, t: Secret, order: seq<Service>)
    requires Quiet(c) && Converged(c) && Lists(order, c.inp.services.Keys)
    requires s in c.inp.services && t.Messaging? && t != c.inp.t
    ensures exists es: seq<Event> :: Legal(c, es) && Orderly(es) &&
              var d := Run(c, es);
              && d.inp == c.inp && !d.deleting && s in d.subs
              && Gate(d.subs[s], Target(d.inp)) && d.subs[s].pods != {}
              && (forall p <- d.subs[s].pods :: p.cfg.t == t) && t !in d.held
  {
    var b := GoAstray(c, s, t, order);
    var d := ComeBack(b, c.inp, s, t, order);
    ReachesTrans(c, b, d, false);
    var es: seq<Event> :| Reaching(c, es, d, false);
    NotDeleted(c, es);
    assert Gate(d.subs[s], Target(d.inp)) && d.subs[s].pods != {};
  }

  // ---------------------------------------------------------------- a tracked secret without a finalizer

  lemma FirstPassFails(c: Cluster)
    requires Fresh(c) && CanPass(c)
    ensures Reaches(c, c.(status := c.status.(t := c.inp.t)), false)
  {
    var b, d := ParentBegin(c), c.(status := c.status.(t := c.inp.t));
    ParentLeads(c, Begin, b);
    ParentLeads(b, Stop, d);
    LeadsTrans(c, b, d);
    LeadsReaches(c, d, false);
  }

  /** Nothing is deployed, and the tracked secret is neither current nor held. */
  predicate Lapsed(c: Cluster, inp: Inputs, prev: Secret) {
    && Quiet(c) && Recorded(c) && c.inp == inp && c.subs == map[]
    && c.status.t == prev && prev.Messaging? && prev != inp.t && prev !in c.held
  }

  lemma OutstandingWaits(c: Cluster)
    requires Quiet(c) && Recorded(c) && Outstanding(c) > 0
    ensures !Completes(c) && !StopsAtHash(c)
  {
    PreparedIs(c);
  }

  /** A pass that waits for a job only holds the current secrets. */
  lemma WaitingPass(c: Cluster)
    requires Quiet(c) && Recorded(c) && !Completes(c) && !StopsAtHash(c)
    ensures var d, p := FullPass(c), Prepared(c);
            d.subs == p.subs && d.status.t == p.pass.status.t && d.held == p.held
  {
    var k := Next(Prepared(c), HashKept);
    var h := Syncing(k);
    assert h == k.(acHeld := h.acHeld, started := h.started, pass := k.pass.(stage := HeldAC));
  }

  lemma LapsedPass(c: Cluster, inp: Inputs, prev: Secret, order: seq<Service>)
    requires Lapsed(c, inp, prev) && Outstanding(c) > 0 && Lists(order, inp.services.Keys)
    ensures Lapsed(FullPass(c), inp, prev)
  {
    MoveKeepsQuiet(c, ParentMove, order);
    OutstandingWaits(c);
    PreparedIs(c);
    WaitingPass(c);
    PassRecords(c);
  }

  /** The jobs get done, and the tracked secret is still not held. */
  lemma {:induction false} JobsGetDone(c: Cluster, inp: Inputs, prev: Secret, order: seq<Service>) returns (d: Cluster)
    requires Lapsed(c, inp, prev) && Lists(order, inp.services.Keys)
    ensures Reaches(c, d, false) && Lapsed(d, inp, prev) && Outstanding(d) == 0
    decreases Outstanding(c)
  {
    if Outstanding(c) == 0 {
      d := c;
      ReachesSelf(c, false);
    } else {
      var job := if JobLeft(c, DbSync(inp.job)) > 0 then DbSync(inp.job) else Migration(inp.job);
      var m := if JobLeft(c, job) == 2 then ParentMove else JobMove(job);
      MoveReaches(c, m, order, false);
      if m == ParentMove {
        LapsedPass(c, inp, prev, order);
        PassStarts(c);
        PassRecords(c);
      }
      d := JobsGetDone(Do(c, m), inp, prev, order);
      ReachesTrans(c, Do(c, m), d, false);
    }
  }

  /** The first pass fails to add the finalizer, and the secret is rotated. */
  lemma LapseReached(c: Cluster, t: Secret, order: seq<Service>) returns (d: Cluster)
    requires Fresh(c) && CanPass(c) && Lists(order, c.inp.services.Keys) && t.Messaging? && t != c.inp.t
    ensures Reaches(c, d, false) && Lapsed(d, c.inp.(t := t), c.inp.t)
  {
    var c1 := c.(status := c.status.(t := c.inp.t));
    FirstPassFails(c);
    FreshInv(c);
    var c2 := Publishing(c1, t);
    PublishReaches(c1, t, false);
    ReachesTrans(c, c1, c2, false);
    HashStop(c2);
    MoveReaches(c2, ParentMove, order, false);
    d := FullPass(c2);
    ReachesTrans(c, c2, d, false);
  }

  /** After early tracking, adding the finalizer may fail; a rotation before the retry then leaves the tracked
      secret without one, also after a completed pass, in a run in which every status patch lands. By
      `TrackedHeldExactly` this failure is the only way. */
  lemma TrackedCanMissFinalizer(c: Cluster, t: Secret, order: seq<Service>)
    requires Fresh(c) && CanPass(c) && c.inp.services != map[] && Lists(order, c.inp.services.Keys)
    requires t.Messaging? && t != c.inp.t
    ensures exists es: seq<Event> :: Legal(c, es) && Orderly(es) &&
              var b := Run(c, es);
              && Quiet(b) && Completes(b)
              && FullPass(b).status.t == c.inp.t && c.inp.t !in FullPass(b).held
  {
    var c3 := LapseReached(c, t, order);
    var b := JobsGetDone(c3, c3.inp, c.inp.t, order);
    ReachesTrans(c, c3, b, false);
    var es: seq<Event> :| Reaching(c, es, b, false);
    FreshInv(c);
    NotDeleted(c, es);
    NewServicesWait(b, c.inp.t);
  }

  /** What the end of a pass does to the finalizer of the tracked messaging secret. */
  lemma EndTracks(b: Cluster)
    requires b.pass.Active? && b.pass.inp.t in b.held && b.pass.inp.t.Messaging?
    requires MessagingName(b.pass.status.t) && NotificationsName(Tracked(b.pass.status.n)) && NoSecret !in b.held
    ensures var d, prev := Finishing(b), b.pass.status.t;
            && (d.status.t in d.held <==> prev in b.held || prev == NoSecret || prev == b.pass.inp.t || b.pass.ready)
            && d.status.t == (if prev == NoSecret || b.pass.ready then b.pass.inp.t else prev)
  {
    var b1 := ParentReleaseT(Next(b, Swept));
    var b2 := ParentReleaseN(b1);
    assert b1.pass.status.t in b1.held <==>
             b.pass.status.t in b.held || b.pass.status.t == NoSecret || b.pass.status.t == b.pass.inp.t
                 || b.pass.ready;
    assert b2.pass.status.t == b1.pass.status.t && (b2.pass.status.t in b2.held <==> b1.pass.status.t in b1.held);
    assert Finishing(b).held == b2.held * Keep(b2.pass) && Finishing(b).status.t == b2.pass.status.t;
  }

  /** Every service of the spec exists, is up to date and has its gate open. */
  predicate AllUpToDate(c: Cluster) {
    forall s <- c.inp.services ::
      s in c.subs && c.subs[s].spec == SpecFor(c.inp, s) && Gate(c.subs[s], Target(c.inp))
  }

  /** A sub-CR that a pass creates or changes has its gate closed. */
  lemma OpenBefore(c: Cluster, subs: map<Service, Sub>, config: Config)
    requires Inv(c) && subs.Keys == c.subs.Keys
    requires forall s <- c.subs :: subs[s] == c.subs[s].(since := subs[s].since)
    ensures AllOpen(AllWritten(subs, c.inp, config), c.inp) <==> AllUpToDate(c)
  {
    forall s <- c.inp.services
      ensures Gate(AllWritten(subs, c.inp, config)[s], Target(c.inp)) <==>
                s in c.subs && c.subs[s].spec == SpecFor(c.inp, s) && Gate(c.subs[s], Target(c.inp))
    {
      if s in c.subs { assert SubOk(c.subs[s], c.config); }
    }
  }

  /** After a completed pass the tracked messaging secret holds its finalizer, if and only if before it the one
      tracked then did, there was none, it was the current one, or every service was up to date with an open gate. */
  lemma CompletedPassTracks(c: Cluster)
    requires Inv(c) && CanPass(c) && Completes(c)
    ensures var d := FullPass(c);
            && (d.status.t in d.held <==>
                  c.status.t in c.held || c.status.t == NoSecret || c.status.t == c.inp.t || AllUpToDate(c))
            && d.status.t == (if c.status.t == NoSecret || AllUpToDate(c) then c.inp.t else c.status.t)
  {
    PreparedIs(c);
    DeployedIs(c);
    OpenBefore(c, Prepared(c).subs, Prepared(c).config);
    EndTracks(AllDeployed(c));
  }

  /** A pass that creates the sub-CRs keeps the tracked secret and adds no finalizer to it. */
  lemma NewServicesWait(c: Cluster, prev: Secret)
    requires Lapsed(c, c.inp, prev) && Outstanding(c) == 0 && c.inp.services != map[]
    ensures Completes(c) && FullPass(c).status.t == prev && prev !in FullPass(c).held
  {
    CompletesWhenDone(c);
    CompletedPassTracks(c);
    var s :| s in c.inp.services;
    assert !AllUpToDate(c);
  }

  // ---------------------------------------------------------------- a service that comes back

  /** A schedule that does not touch the leftover sub-CR of `s`. */
  predicate Avoids(ms: seq<Move>, s: Service) {
    SubMove(s) !in ms && RollMove(s) !in ms
  }

  lemma MoveKeepsOther(c: Cluster, m: Move, s: Service)
    requires Quiet(c) && s in c.subs && s !in c.inp.services && m != SubMove(s) && m != RollMove(s)
    ensures s in Do(c, m).subs && Do(c, m).subs[s].pods == c.subs[s].pods
  {
    if m == ParentMove { PassKeepsOther(c, s); }
  }

  lemma PassKeepsOther(c: Cluster, s: Service)
    requires CanPass(c) && s in c.subs && s !in c.inp.services
    ensures s in FullPass(c).subs && FullPass(c).subs[s].pods == c.subs[s].pods
  {
    PreparedIs(c);
    PassEnds(c);
  }

  lemma {:induction false} PlayKeepsOther(c: Cluster, ms: seq<Move>, s: Service, order: seq<Service>)
    requires Quiet(c) && Lists(order, c.inp.services.Keys)
    requires s in c.subs && s !in c.inp.services && Avoids(ms, s)
    ensures var d := Play(c, ms, order); Reaches(c, d, true) && s in d.subs && d.subs[s].pods == c.subs[s].pods
    decreases |ms|
  {
    if ms == [] {
      ReachesSelf(c, true);
    } else {
      var d := Do(c, ms[0]);
      MoveReaches(c, ms[0], order, true);
      assert ms[0] in ms;
      MoveKeepsOther(c, ms[0], s);
      PlayKeepsOther(d, ms[1..], s, order);
      ReachesTrans(c, d, Play(d, ms[1..], order), true);
    }
  }

  lemma {:induction false} RoundsKeepOther(c: Cluster, rounds: seq<seq<Move>>, s: Service, order: seq<Service>)
    requires Quiet(c) && Lists(order, c.inp.services.Keys)
    requires s in c.subs && s !in c.inp.services && forall r <- rounds :: Avoids(r, s)
    ensures var d := PlayAll(c, rounds, order); Reaches(c, d, true) && s in d.subs && d.subs[s].pods == c.subs[s].pods
    decreases |rounds|
  {
    if rounds == [] {
      ReachesSelf(c, true);
    } else {
      var d := Play(c, rounds[0], order);
      PlayKeepsOther(c, rounds[0], s, order);
      RoundsKeepOther(d, rounds[1..], s, order);
      ReachesTrans(c, d, PlayAll(d, rounds[1..], order), true);
    }
  }

  /** One fair round over the listed services. */
  function RoundOver(inp: Inputs, order: seq<Service>): (ms: seq<Move>)
    ensures Lists(order, inp.services.Keys) ==> Fair(ms, inp)
    ensures forall s: Service :: s !in order ==> Avoids(ms, s)
  {
    var subs, rolls := seq(|order|, i requires 0 <= i < |order| => SubMove(order[i])),
                       seq(|order|, i requires 0 <= i < |order| => RollMove(order[i]));
    assert forall i :: 0 <= i < |order| ==> subs[i] == SubMove(order[i]) && rolls[i] == RollMove(order[i]);
    [ParentMove, JobMove(DbSync(inp.job)), JobMove(Migration(inp.job))] + subs + rolls
  }

  /** With the service gone from the spec, a rotation can complete without it, whatever its pods run. */
  lemma RotateWithout(c: Cluster, s: Service, order: seq<Service>) returns (d: Cluster)
    requires Quiet(c) && Lists(order, c.inp.services.Keys) && s in c.subs && s !in c.inp.services
    ensures Reaches(c, d, true) && Converged(d) && d.inp == c.inp && !d.deleting
    ensures s in d.subs && d.subs[s].pods == c.subs[s].pods
  {
    var rounds := seq(Measure(c, order), i => RoundOver(c.inp, order));
    assert forall r <- rounds :: r == RoundOver(c.inp, order);
    FairRoundsConverge(c, rounds, order);
    RoundsKeepOther(c, rounds, s, order);
    d := PlayAll(c, rounds, order);
  }

  /** Why a service may join the spec only without a leftover sub-CR: a service that leaves the spec, misses a
      rotation and comes back is in the spec with pods on a secret that has lost its finalizer, although every
      event before its return was careful: in particular every secret was published only after the previous one
      was tracked. */
  lemma ReturningServiceIsUnsafe(c: Cluster, s: Service, t: Secret, order: seq<Service>)
    requires Quiet(c) && Converged(c) && s in c.inp.services && t.Messaging? && t != c.inp.t
    requires Lists(order, c.inp.services.Keys - {s})
    ensures exists es: seq<Event> ::
              && Legal(c, es) && CarefulRun(c, es) && Orderly(es)
              && Legal(c, es + [AddService(s, 1)])
              && var d := Run(c, es + [AddService(s, 1)]);
              && !d.deleting && s in d.inp.services && s in d.subs && d.subs[s].pods != {}
              && forall p <- d.subs[s].pods :: p.cfg.t == c.inp.t && c.inp.t !in d.held
  {
    var d := LeaveAndRotate(c, s, t, order);
    var es: seq<Event> :| Reaching(c, es, d, true);
    NotDeleted(c, es);
    AddLast(c, es, d, s);
  }

  /** The service leaves, and the others rotate. */
  lemma LeaveAndRotate(c: Cluster, s: Service, t: Secret, order: seq<Service>) returns (d: Cluster)
    requires Quiet(c) && Converged(c) && s in c.inp.services && t.Messaging? && t != c.inp.t
    requires Lists(order, c.inp.services.Keys - {s})
    ensures Reaches(c, d, true) && !d.deleting && s in d.subs && d.subs[s].pods == {Wanted(c.inp)} && c.inp.t !in d.held
  {
    assert Weight(c, s) == 0;
    var c1 := EnvApply(c, RemoveService(s));
    EnvReaches(c, RemoveService(s), true);
    StepKeepsInv(c, RemoveService(s));
    PublishReaches(c1, t, true);
    var c2 := Publishing(c1, t);
    ReachesTrans(c, c1, c2, true);
    d := RotateWithout(c2, s, order);
    ReachesTrans(c, c2, d, true);
  }

  lemma AddLast(c: Cluster, es: seq<Event>, d: Cluster, s: Service)
    requires Legal(c, es) && Run(c, es) == d
    ensures Legal(c, es + [AddService(s, 1)]) && Run(c, es + [AddService(s, 1)]) == EnvApply(d, AddService(s, 1))
  {
    var e := AddService(s, 1);
    assert [e][1..] == [] && Legal(EnvApply(d, e), []);
    assert Legal(d, [e]) && Run(d, [e]) == EnvApply(d, e);
    RunAppend(c, es, [e]);
  }
}
