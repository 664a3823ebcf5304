/** Rotation safety. A run is careful when a new messaging secret, a new notifications secret or the end of
    the bus is published only after the current one has become the tracked one, and when a service joins the
    spec only while no sub-CR of that name is left over. In every state of every careful run, before deletion,
    each secret that a spec'd service names or uses holds the transport finalizer. */
module Safety {
  import opened Common
  import opened Cluster
  import opened Invariant

  /** The two transports, messaging and notifications, rotate by the same rules. */
  datatype Channel = MessagingChannel | NotificationsChannel

  function OfPair(ch: Channel, p: Pair): (s: Secret) {
    if ch.MessagingChannel? then p.t else p.n
  }

  function OfConfig(ch: Channel, cfg: Config): (s: Secret) {
    if ch.MessagingChannel? then cfg.t else cfg.n
  }

  function Current(ch: Channel, inp: Inputs): (s: Secret) {
    OfPair(ch, Target(inp))
  }

  function TrackedOn(ch: Channel, status: Status): (s: Secret) {
    if ch.MessagingChannel? then status.t else Tracked(status.n)
  }

  /** All secrets of the channel that a sub-CR names or uses: in its spec, in the pass under way, in its
      StatefulSet, in its pods, or in a config it may still have picked up, lie in `ss`. */
  predicate Within(ch: Channel, sub: Sub, ss: set<Secret>) {
    && OfPair(ch, sub.spec.pair) in ss
    && (forall cfg <- sub.since :: OfConfig(ch, cfg) in ss)
    && (sub.template.Some? ==> OfConfig(ch, sub.template.value.cfg) in ss)
    && (forall p <- sub.pods :: OfConfig(ch, p.cfg) in ss)
    && (!sub.work.Resting? ==> OfPair(ch, sub.work.pair) in ss)
    && (sub.work.Loaded? || sub.work.Deployed? ==> OfConfig(ch, sub.work.cfg) in ss)
  }

  /** The deployed services of the spec. */
  function Live(c: Cluster): (r: set<Service>) {
    c.inp.services.Keys * c.subs.Keys
  }

  predicate Uses(ch: Channel, c: Cluster, ss: set<Secret>) {
    && OfConfig(ch, c.config) in ss
    && (forall s <- Live(c) :: Within(ch, c.subs[s], ss))
  }

  predicate SpecsName(ch: Channel, c: Cluster, x: Secret) {
    forall s <- Live(c) :: OfPair(ch, c.subs[s].spec.pair) == x
  }

  /** A service whose spec names the current secret has seen no config for another one since. */
  predicate Clean(ch: Channel, sub: Sub, cur: Secret) {
    OfPair(ch, sub.spec.pair) == cur ==> forall cfg <- sub.since :: OfConfig(ch, cfg) == cur
  }

  /** The in-memory half: what the pass under way has read and will persist. */
  predicate PassCore(ch: Channel, c: Cluster)
    requires c.pass.Active?
  {
    var tr, cur := TrackedOn(ch, c.status), Current(ch, c.inp);
    var mine, value := TrackedOn(ch, c.pass.status), Current(ch, c.pass.inp);
    && (value == tr || value == cur)
    && (mine == tr || mine == value)
    && Uses(ch, c, {NoSecret, mine, cur})
    && (mine == cur ==> SpecsName(ch, c, cur))
    && (value != cur ==>
          tr == value && mine == value && SpecsName(ch, c, value) && Uses(ch, c, {NoSecret, value}))
    && Live(c) <= c.pass.inp.services.Keys
  }

  predicate Core(ch: Channel, c: Cluster) {
    var tr, cur := TrackedOn(ch, c.status), Current(ch, c.inp);
    && Uses(ch, c, {NoSecret, tr, cur})
    && (forall s <- Live(c) :: Clean(ch, c.subs[s], cur))
    && (ch.MessagingChannel? ==> forall s <- Live(c) :: c.subs[s].spec.pair.t != NoSecret)
    && (tr == cur ==> SpecsName(ch, c, cur))
    && (c.pass.Active? ==> PassCore(ch, c))
  }

  /** Every secret of the channel in use holds the transport finalizer. */
  predicate Held(ch: Channel, c: Cluster) {
    Uses(ch, c, c.held + {NoSecret})
  }

  predicate Safe(c: Cluster) {
    Held(MessagingChannel, c) && Held(NotificationsChannel, c)
  }

  predicate BothCore(c: Cluster) {
    Core(MessagingChannel, c) && Core(NotificationsChannel, c)
  }

  /** A deletion has been requested and no pass that writes anything is under way. */
  predicate Leaving(c: Cluster) {
    c.deleting && !c.pass.Active?
  }

  /** In every careful run, deletions included. */
  predicate SafetyInv(c: Cluster) {
    BothCore(c) && (Safe(c) || Leaving(c))
  }

  /** In every careful run up to the first step of a deletion. */
  predicate Tended(c: Cluster) {
    BothCore(c) && Safe(c) && !c.pass.Removing?
  }

  /** What the outside world must respect. */
  predicate Careful(c: Cluster, e: Event) {
    match e
    case Publish(t) => t == c.inp.t || c.status.t == c.inp.t
    case SetBus(bus) => BusSecret(bus) == BusSecret(c.inp.bus) || Tracked(c.status.n) == BusSecret(c.inp.bus)
    case AddService(s, _) => s in c.inp.services || s !in c.subs
    case _ => true
  }

  predicate CarefulRun(c: Cluster, es: seq<Event>)
    requires Legal(c, es)
    decreases |es|
  {
    es == [] || (Careful(c, es[0]) && CarefulRun(Apply(c, es[0]), es[1..]))
  }

  // ---------------------------------------------------------------- helpers

  lemma WithinMono(ch: Channel, sub: Sub, ss: set<Secret>, tt: set<Secret>)
    requires Within(ch, sub, ss) && ss <= tt
    ensures Within(ch, sub, tt)
  {
  }

  lemma UsesMono(ch: Channel, c: Cluster, ss: set<Secret>, tt: set<Secret>)
    requires Uses(ch, c, ss) && ss <= tt
    ensures Uses(ch, c, tt)
  {
    forall s <- Live(c) ensures Within(ch, c.subs[s], tt) { WithinMono(ch, c.subs[s], ss, tt); }
  }

  /** Two bounds on the secrets in use bound them together. */
  lemma UsesMeet(ch: Channel, c: Cluster, ss: set<Secret>, tt: set<Secret>)
    requires Uses(ch, c, ss) && Uses(ch, c, tt)
    ensures Uses(ch, c, ss * tt)
  {
  }

  /** When all gates of a pass that has written every service were open, the whole of the spec'd workload is on
      the pass's own secrets: nothing uses any other secret of the channel. */
  lemma ReadyMeansMoved(ch: Channel, c: Cluster)
    requires Inv(c) && Core(ch, c)
    requires c.pass.Active? && Rank(c.pass.stage) >= 9 && c.pass.ready
    ensures Uses(ch, c, {NoSecret, Current(ch, c.pass.inp)})
    ensures SpecsName(ch, c, Current(ch, c.pass.inp))
  {
    var value := Current(ch, c.pass.inp);
    forall s <- Live(c)
      ensures OfPair(ch, c.subs[s].spec.pair) == value && Within(ch, c.subs[s], {NoSecret, value})
    {
      assert s in Done(c.pass);
      assert SubOk(c.subs[s], c.config);
      if value == Current(ch, c.inp) {
        assert Clean(ch, c.subs[s], value);
      }
    }
  }

  // ---------------------------------------------------------------- the outside world

  lemma SubsetLive(ch: Channel, c: Cluster, d: Cluster)
    requires Core(ch, c)
    requires d == c.(inp := d.inp, subs := d.subs)
    requires Target(d.inp) == Target(c.inp)
    requires Live(d) <= Live(c) && forall s <- Live(d) :: d.subs[s] == c.subs[s]
    ensures Core(ch, d) && (Held(ch, c) ==> Held(ch, d))
  {
  }

  /** Publishing a new secret while the current one is the tracked one. */
  lemma MoveCurrent(ch: Channel, c: Cluster, d: Cluster)
    requires Core(ch, c)
    requires d == c.(inp := d.inp, deleting := d.deleting) && d.inp.services == c.inp.services
    requires Current(ch, d.inp) == Current(ch, c.inp) || TrackedOn(ch, c.status) == Current(ch, c.inp)
    ensures Core(ch, d) && (Held(ch, c) ==> Held(ch, d))
  {
    assert Live(d) == Live(c);
    if Current(ch, d.inp) != Current(ch, c.inp) {
      var cur := Current(ch, c.inp);
      UsesMono(ch, c, {NoSecret, cur, cur}, {NoSecret, cur, Current(ch, d.inp)});
    }
  }

  lemma InputsKeepCore(ch: Channel, c: Cluster, e: Event)
    requires Core(ch, c) && EnvEnabled(c, e) && Careful(c, e)
    requires e.Publish? || e.SetBus? || e.SetCredential? || e.Edit? || e.RequestDelete?
    ensures Core(ch, EnvApply(c, e)) && (Held(ch, c) ==> Held(ch, EnvApply(c, e)))
  {
    MoveCurrent(ch, c, EnvApply(c, e));
  }

  lemma ServicesKeepCore(ch: Channel, c: Cluster, e: Event)
    requires Core(ch, c) && EnvEnabled(c, e) && Careful(c, e)
    requires e.AddService? || e.RemoveService? || e.Collect?
    ensures Core(ch, EnvApply(c, e)) && (Held(ch, c) ==> Held(ch, EnvApply(c, e)))
  {
    SubsetLive(ch, c, EnvApply(c, e));
  }

  lemma JobKeepsCore(ch: Channel, c: Cluster, run: Job)
    requires run in c.started
    requires Core(ch, c)
    ensures Core(ch, EnvApply(c, FinishJob(run))) && (Held(ch, c) ==> Held(ch, EnvApply(c, FinishJob(run))))
  {
    assert Live(EnvApply(c, FinishJob(run))) == Live(c);
  }

  lemma EnvKeepsCore(ch: Channel, c: Cluster, e: Event)
    requires Core(ch, c) && EnvEnabled(c, e) && Careful(c, e)
    ensures Core(ch, EnvApply(c, e)) && (Held(ch, c) ==> Held(ch, EnvApply(c, e)))
  {
    if e.FinishJob? {
      JobKeepsCore(ch, c, e.run);
    } else if e.AddService? || e.RemoveService? || e.Collect? {
      ServicesKeepCore(ch, c, e);
    } else {
      InputsKeepCore(ch, c, e);
    }
  }

  // ---------------------------------------------------------------- the sub-controllers

  lemma SubStepWithin(ch: Channel, c: Cluster, e: Event, ss: set<Secret>)
    requires IsSub(e) && SubEnabled(c, e) && Within(ch, c.subs[e.s], ss) && OfConfig(ch, c.config) in ss
    ensures Within(ch, SubStep(c, e), ss)
  {
    match e
    case SubBegin(s) =>
    case SubLoad(s) =>
    case SubDeploy(s) =>
    case SubFinish(s, count, up) =>
    case SubStop(s) =>
    case Roll(s, pods) =>
  }

  lemma SubStepUses(ch: Channel, c: Cluster, e: Event, ss: set<Secret>)
    requires IsSub(e) && SubEnabled(c, e) && Uses(ch, c, ss)
    ensures Uses(ch, OnSub(c, e.s, SubStep(c, e)), ss)
  {
    var d := OnSub(c, e.s, SubStep(c, e));
    assert Live(d) == Live(c);
    if e.s in Live(c) { SubStepWithin(ch, c, e, ss); }
  }

  lemma SubKeepsPassCore(ch: Channel, c: Cluster, e: Event)
    requires Inv(c) && Core(ch, c) && c.pass.Active? && IsSub(e) && SubEnabled(c, e)
    ensures PassCore(ch, OnSub(c, e.s, SubStep(c, e)))
  {
    var d, cur := OnSub(c, e.s, SubStep(c, e)), Current(ch, c.inp);
    assert Live(d) == Live(c);
    assert SubOk(c.subs[e.s], c.config);
    SubStepKeeps(c, e);
    SubStepUses(ch, c, e, {NoSecret, TrackedOn(ch, c.pass.status), cur});
    if Current(ch, c.pass.inp) != cur {
      SubStepUses(ch, c, e, {NoSecret, Current(ch, c.pass.inp)});
    }
  }

  lemma SubKeepsCore(ch: Channel, c: Cluster, e: Event)
    requires Inv(c) && Core(ch, c) && IsSub(e) && SubEnabled(c, e)
    ensures var d := OnSub(c, e.s, SubStep(c, e)); Core(ch, d) && (Held(ch, c) ==> Held(ch, d))
  {
    var d := OnSub(c, e.s, SubStep(c, e));
    assert Live(d) == Live(c);
    SubStepUses(ch, c, e, {NoSecret, TrackedOn(ch, c.status), Current(ch, c.inp)});
    if Held(ch, c) { SubStepUses(ch, c, e, c.held + {NoSecret}); }
    assert SubOk(c.subs[e.s], c.config);
    SubStepKeeps(c, e);
    if c.pass.Active? { SubKeepsPassCore(ch, c, e); }
  }

  // ---------------------------------------------------------------- the parent

  /** Steps that touch neither the config nor the sub-CRs, only add finalizers, and leave the tracked names. */
  lemma QuietKeepsCore(ch: Channel, c: Cluster, d: Cluster)
    requires Core(ch, c) && Held(ch, c)
    requires d == c.(pass := d.pass, held := d.held, acHeld := d.acHeld, started := d.started) && c.held <= d.held
    requires c.pass.Active? && d.pass.Active? && d.pass.inp == c.pass.inp
    requires TrackedOn(ch, d.pass.status) == TrackedOn(ch, c.pass.status)
    ensures Core(ch, d) && Held(ch, d)
  {
    assert Live(d) == Live(c);
    UsesMono(ch, c, c.held + {NoSecret}, d.held + {NoSecret});
  }

  lemma BeginKeepsCore(ch: Channel, c: Cluster)
    requires Inv(c) && Core(ch, c) && Held(ch, c) && ParentEnabled(c, Begin)
    ensures Core(ch, ParentBegin(c)) && Held(ch, ParentBegin(c))
  {
    var d := ParentBegin(c);
    assert Live(d) == Live(c);
    UsesMono(ch, c, {NoSecret, TrackedOn(ch, c.status), Current(ch, c.inp)},
             {NoSecret, TrackedOn(ch, d.pass.status), Current(ch, c.inp)});
  }

  lemma RenderUses(ch: Channel, c: Cluster, ss: set<Secret>)
    requires c.pass.Active? && Uses(ch, c, ss) && Current(ch, c.pass.inp) in ss
    ensures Uses(ch, ParentRender(c), ss)
  {
    assert Live(ParentRender(c)) == Live(c);
  }

  lemma RenderKeepsCore(ch: Channel, c: Cluster)
    requires Inv(c) && Core(ch, c) && Held(ch, c) && ParentEnabled(c, Render)
    ensures Core(ch, ParentRender(c)) && Held(ch, ParentRender(c))
  {
    var d := ParentRender(c);
    assert Live(d) == Live(c);
    var tr, cur, value := TrackedOn(ch, c.status), Current(ch, c.inp), Current(ch, c.pass.inp);
    RenderUses(ch, c, {NoSecret, tr, cur});
    RenderUses(ch, c, c.held + {NoSecret});
    RenderUses(ch, c, {NoSecret, TrackedOn(ch, c.pass.status), cur});
    if value != cur { RenderUses(ch, c, {NoSecret, value}); }
    forall s <- Live(d) ensures Clean(ch, d.subs[s], cur) {
      assert Clean(ch, c.subs[s], cur);
    }
  }

  lemma WriteUses(ch: Channel, c: Cluster, s: Service, ss: set<Secret>)
    requires Inv(c) && ParentEnabled(c, WriteSub(s))
    requires Uses(ch, c, ss) && Current(ch, c.pass.inp) in ss
    requires s in c.inp.services && s !in c.subs ==> NoSecret in ss
    ensures Uses(ch, ParentWriteSub(c, s), ss)
  {
    var d := ParentWriteSub(c, s);
    forall x <- Live(d) ensures Within(ch, d.subs[x], ss) {
      if x != s { assert x in Live(c); }
    }
  }

  lemma WriteSpecs(ch: Channel, c: Cluster, s: Service)
    requires Inv(c) && Core(ch, c) && ParentEnabled(c, WriteSub(s))
    ensures var d := ParentWriteSub(c, s);
            && (forall x <- Live(d) :: Clean(ch, d.subs[x], Current(ch, c.inp)) && (x == s || x in Live(c)))
            && OfPair(ch, d.subs[s].spec.pair) == Current(ch, c.pass.inp)
            && d.subs[s].spec.pair.t != NoSecret
  {
    var d, cur := ParentWriteSub(c, s), Current(ch, c.inp);
    forall x <- Live(d) ensures Clean(ch, d.subs[x], cur) && (x == s || x in Live(c)) {
      if x in Live(c) { assert Clean(ch, c.subs[x], cur); }
    }
  }

  /** A written sub-CR, seen as a change of one entry. */
  lemma OneWritten(ch: Channel, c: Cluster, d: Cluster, s: Service)
    requires Core(ch, c) && c.pass.Active? && d.pass.Active? && s in c.pass.inp.services && s in d.subs
    requires d == c.(subs := c.subs[s := d.subs[s]], pass := d.pass)
    requires d.pass.inp == c.pass.inp && d.pass.status == c.pass.status
    requires Uses(ch, d, {NoSecret, TrackedOn(ch, c.status), Current(ch, c.inp)})
    requires Uses(ch, d, {NoSecret, TrackedOn(ch, c.pass.status), Current(ch, c.inp)})
    requires Current(ch, c.pass.inp) != Current(ch, c.inp) ==> Uses(ch, d, {NoSecret, Current(ch, c.pass.inp)})
    requires forall x <- Live(d) :: Clean(ch, d.subs[x], Current(ch, c.inp)) && (x == s || x in Live(c))
    requires OfPair(ch, d.subs[s].spec.pair) == Current(ch, c.pass.inp) && d.subs[s].spec.pair.t != NoSecret
    ensures Core(ch, d)
  {
  }

  lemma WriteKeepsCore(ch: Channel, c: Cluster, s: Service)
    requires Inv(c) && Core(ch, c) && Held(ch, c) && ParentEnabled(c, WriteSub(s))
    ensures Core(ch, ParentWriteSub(c, s)) && Held(ch, ParentWriteSub(c, s))
  {
    var d := ParentWriteSub(c, s);
    var tr, cur, value := TrackedOn(ch, c.status), Current(ch, c.inp), Current(ch, c.pass.inp);
    WriteUses(ch, c, s, {NoSecret, tr, cur});
    WriteUses(ch, c, s, c.held + {NoSecret});
    WriteUses(ch, c, s, {NoSecret, TrackedOn(ch, c.pass.status), cur});
    if value != cur { WriteUses(ch, c, s, {NoSecret, value}); }
    WriteSpecs(ch, c, s);
    OneWritten(ch, c, d, s);
  }

  /** Changing the in-memory tracked name, and releasing its finalizer, once all services have been written. */
  lemma ReleaseKeepsCore(ch: Channel, c: Cluster, d: Cluster)
    requires Inv(c) && Core(ch, c) && Held(ch, c)
    requires d == c.(pass := d.pass, held := d.held)
    requires c.pass.Active? && d.pass.Active? && d.pass.inp == c.pass.inp && Rank(c.pass.stage) >= 9
    requires var value, mine := Current(ch, c.pass.inp), TrackedOn(ch, c.pass.status);
             var next := TrackedOn(ch, d.pass.status);
             || (d.held == c.held && next == mine)
             || (d.held == c.held && mine == NoSecret && next == value)
             || (d.held == c.held - {mine} && mine != value && next == value && c.pass.ready)
    ensures Core(ch, d) && Held(ch, d)
  {
    assert Live(d) == Live(c);
    var cur, value := Current(ch, c.inp), Current(ch, c.pass.inp);
    var mine, next := TrackedOn(ch, c.pass.status), TrackedOn(ch, d.pass.status);
    forall s <- Live(c) ensures OfPair(ch, c.subs[s].spec.pair) == value {
      assert s in Done(c.pass);
    }
    if mine == NoSecret && next == value {
      UsesMono(ch, c, {NoSecret, mine, cur}, {NoSecret, next, cur});
    } else if next != mine {
      ReadyMeansMoved(ch, c);
      UsesMono(ch, c, {NoSecret, value}, {NoSecret, next, cur});
      UsesMeet(ch, c, {NoSecret, value}, c.held + {NoSecret});
      UsesMono(ch, c, {NoSecret, value} * (c.held + {NoSecret}), d.held + {NoSecret});
    }
  }

  /** Releasing a finalizer of the other channel. */
  lemma OtherChannelKept(ch: Channel, c: Cluster, d: Cluster, x: Secret)
    requires Inv(c) && Core(ch, c) && Held(ch, c)
    requires d == c.(pass := d.pass, held := d.held) && (d.held == c.held || d.held == c.held - {x})
    requires c.pass.Active? && d.pass.Active? && d.pass.inp == c.pass.inp
    requires TrackedOn(ch, d.pass.status) == TrackedOn(ch, c.pass.status)
    requires if ch.MessagingChannel? then x.Notifications? else x.Messaging?
    ensures Core(ch, d) && Held(ch, d)
  {
    assert Live(d) == Live(c);
    var tr, cur := TrackedOn(ch, c.status), Current(ch, c.inp);
    UsesMeet(ch, c, {NoSecret, tr, cur}, c.held + {NoSecret});
    UsesMono(ch, c, {NoSecret, tr, cur} * (c.held + {NoSecret}), d.held + {NoSecret});
  }

  lemma ReleaseTKeepsSafety(c: Cluster)
    requires Inv(c) && BothCore(c) && Safe(c) && ParentEnabled(c, ReleaseT)
    ensures BothCore(ParentReleaseT(c)) && Safe(ParentReleaseT(c))
  {
    var d := ParentReleaseT(c);
    ReleaseKeepsCore(MessagingChannel, c, d);
    if d.held == c.held {
      QuietKeepsCore(NotificationsChannel, c, d);
    } else {
      OtherChannelKept(NotificationsChannel, c, d, c.pass.status.t);
    }
  }

  lemma ReleaseNKeepsSafety(c: Cluster)
    requires Inv(c) && BothCore(c) && Safe(c) && ParentEnabled(c, ReleaseN)
    ensures BothCore(ParentReleaseN(c)) && Safe(ParentReleaseN(c))
  {
    var d := ParentReleaseN(c);
    ReleaseKeepsCore(NotificationsChannel, c, d);
    if d.held == c.held {
      QuietKeepsCore(MessagingChannel, c, d);
    } else {
      OtherChannelKept(MessagingChannel, c, d, Tracked(c.pass.status.n));
    }
  }

  lemma PruneKeepsCore(ch: Channel, c: Cluster)
    requires Inv(c) && Core(ch, c) && Held(ch, c) && ParentEnabled(c, Prune)
    ensures Core(ch, ParentPrune(c)) && Held(ch, ParentPrune(c))
  {
    var d := ParentPrune(c);
    assert Live(d) == Live(c);
    var cur, value, mine := Current(ch, c.inp), Current(ch, c.pass.inp), TrackedOn(ch, c.pass.status);
    var ss := if value == cur then {NoSecret, mine, cur} else {NoSecret, value};
    UsesMeet(ch, c, ss, c.held + {NoSecret});
    UsesMono(ch, c, ss * (c.held + {NoSecret}), d.held + {NoSecret});
  }

  /** A pass ends: the in-memory status becomes the persisted one. */
  lemma PersistKeepsCore(ch: Channel, c: Cluster, d: Cluster)
    requires Core(ch, c) && Held(ch, c) && c.pass.Active?
    requires d == c.(pass := Idle, status := d.status, acHeld := d.acHeld)
    requires TrackedOn(ch, d.status) == TrackedOn(ch, c.pass.status) || d.status == c.status
    ensures Core(ch, d) && Held(ch, d)
  {
    assert Live(d) == Live(c);
  }

  lemma QuietParentKeeps(ch: Channel, c: Cluster, e: Event)
    requires Inv(c) && Core(ch, c) && Held(ch, c) && ParentEnabled(c, e)
    requires e.HoldT? || e.ReadBus? || e.HoldN? || e.HoldAC? || e.StartDbSync? || e.RunDbSync? || e.StartMigration?
             || e.RunMigration? || e.Sweep? || e.ReleaseAC?
    ensures Core(ch, ParentApply(c, e)) && Held(ch, ParentApply(c, e))
  {
    QuietKeepsCore(ch, c, ParentApply(c, e));
  }

  lemma EndingParentKeeps(ch: Channel, c: Cluster, e: Event)
    requires Inv(c) && Core(ch, c) && Held(ch, c) && ParentEnabled(c, e)
    requires c.pass.Active? && (e.CheckHash? || e.Complete? || e.Stop? || e.Crash?)
    ensures Core(ch, ParentApply(c, e)) && Held(ch, ParentApply(c, e))
  {
    var d := ParentApply(c, e);
    if d.pass.Active? {
      QuietKeepsCore(ch, c, d);
    } else {
      PersistKeepsCore(ch, c, d);
    }
  }

  lemma ParentKeepsCore(ch: Channel, c: Cluster, e: Event)
    requires Inv(c) && Core(ch, c) && Held(ch, c) && !IsEnv(e) && !IsSub(e) && ParentEnabled(c, e)
    requires !e.ReleaseT? && !e.ReleaseN? && !IsRemoval(e) && !c.pass.Removing?
    ensures Core(ch, ParentApply(c, e)) && Held(ch, ParentApply(c, e))
  {
    if e.Begin? {
      BeginKeepsCore(ch, c);
    } else if e.Render? {
      RenderKeepsCore(ch, c);
    } else if e.WriteSub? {
      WriteKeepsCore(ch, c, e.s);
    } else if e.Prune? {
      PruneKeepsCore(ch, c);
    } else if e.CheckHash? || e.Complete? || e.Stop? || e.Crash? {
      EndingParentKeeps(ch, c, e);
    } else {
      QuietParentKeeps(ch, c, e);
    }
  }

  lemma ParentKeepsSafety(c: Cluster, e: Event)
    requires Inv(c) && Tended(c) && !IsEnv(e) && !IsSub(e) && ParentEnabled(c, e) && !IsRemoval(e)
    ensures BothCore(ParentApply(c, e)) && Safe(ParentApply(c, e))
  {
    if e.ReleaseT? {
      ReleaseTKeepsSafety(c);
    } else if e.ReleaseN? {
      ReleaseNKeepsSafety(c);
    } else {
      ParentKeepsCore(MessagingChannel, c, e);
      ParentKeepsCore(NotificationsChannel, c, e);
    }
  }

  /** Only a deletion starts with its own first step. */
  lemma ParentStaysNormal(c: Cluster, e: Event)
    requires ParentEnabled(c, e) && !IsRemoval(e) && !c.pass.Removing?
    ensures !ParentApply(c, e).pass.Removing?
  {
    match e
    case Begin => case HoldT => case ReadBus => case HoldN => case Render => case CheckHash => case HoldAC =>
    case StartDbSync => case RunDbSync => case StartMigration => case RunMigration => case WriteSub(s) => case Sweep =>
    case ReleaseT => case ReleaseN => case ReleaseAC => case Prune => case Complete => case Stop => case Crash =>
  }

  /** The steps of a deletion take finalizers away and touch nothing that uses a secret. */
  lemma RemovalKeepsCore(c: Cluster, e: Event)
    requires Inv(c) && BothCore(c) && ParentEnabled(c, e) && (IsRemoval(e) || (e.Stop? && c.pass.Removing?))
    ensures BothCore(ParentApply(c, e)) && Leaving(ParentApply(c, e))
  {
    RemovalOnlyReleases(c, e);
    UnheldKeepsCore(MessagingChannel, c, ParentApply(c, e));
    UnheldKeepsCore(NotificationsChannel, c, ParentApply(c, e));
  }

  lemma RemovalOnlyReleases(c: Cluster, e: Event)
    requires Inv(c) && ParentEnabled(c, e) && (IsRemoval(e) || (e.Stop? && c.pass.Removing?))
    ensures var d := ParentApply(c, e);
            && d == c.(held := d.held, acHeld := d.acHeld, gone := d.gone, pass := d.pass)
            && !c.pass.Active? && !d.pass.Active? && c.deleting
  {
    match e
    case BeginDelete => case Unhold(x) => case UnholdAC(x) => case Clear => case ClearAC => case Delete => case Stop =>
  }

  lemma UnheldKeepsCore(ch: Channel, c: Cluster, d: Cluster)
    requires Core(ch, c) && !d.pass.Active?
    requires d == c.(held := d.held, acHeld := d.acHeld, gone := d.gone, pass := d.pass)
    ensures Core(ch, d)
  {
    assert Live(d) == Live(c);
  }

  // ---------------------------------------------------------------- whole runs

  lemma StepKeepsSafety(c: Cluster, e: Event)
    requires Inv(c) && SafetyInv(c) && Enabled(c, e) && Careful(c, e)
    ensures SafetyInv(Apply(c, e))
    ensures Tended(c) && !IsRemoval(e) ==> Tended(Apply(c, e))
  {
    if IsEnv(e) {
      EnvKeepsCore(MessagingChannel, c, e);
      EnvKeepsCore(NotificationsChannel, c, e);
      EnvLeaves(c, e);
    } else if IsSub(e) {
      SubKeepsCore(MessagingChannel, c, e);
      SubKeepsCore(NotificationsChannel, c, e);
    } else {
      ParentStepKeeps(c, e);
    }
  }

  lemma ParentStepKeeps(c: Cluster, e: Event)
    requires Inv(c) && SafetyInv(c) && !IsEnv(e) && !IsSub(e) && ParentEnabled(c, e)
    ensures SafetyInv(ParentApply(c, e))
    ensures Tended(c) && !IsRemoval(e) ==> Tended(ParentApply(c, e))
  {
    if IsRemoval(e) || (e.Stop? && c.pass.Removing?) {
      RemovalKeepsCore(c, e);
    } else if c.pass.Removing? || (Leaving(c) && !Safe(c)) {
      OnlyRemovals(c, e);
    } else {
      ParentKeepsSafety(c, e);
      ParentStaysNormal(c, e);
    }
  }

  lemma EnvLeaves(c: Cluster, e: Event)
    requires EnvEnabled(c, e)
    ensures var d := EnvApply(c, e); d.pass == c.pass && (c.deleting ==> d.deleting)
  {
  }

  lemma OnlyRemovals(c: Cluster, e: Event)
    requires !IsEnv(e) && !IsSub(e) && ParentEnabled(c, e) && (c.pass.Removing? || Leaving(c))
    ensures IsRemoval(e) || (e.Stop? && c.pass.Removing?)
  {
  }

  predicate NoRemoval(es: seq<Event>) {
    forall e <- es :: !IsRemoval(e)
  }

  lemma {:induction false} RunKeepsSafety(c: Cluster, es: seq<Event>)
    requires Inv(c) && SafetyInv(c) && Legal(c, es) && CarefulRun(c, es)
    ensures Inv(Run(c, es)) && SafetyInv(Run(c, es))
    ensures Tended(c) && NoRemoval(es) ==> Tended(Run(c, es))
    decreases |es|
  {
    if es != [] {
      assert es[0] in es;
      StepKeepsInv(c, es[0]);
      StepKeepsSafety(c, es[0]);
      RunKeepsSafety(Apply(c, es[0]), es[1..]);
    }
  }

  /** Both secrets that the spec names, and both that the StatefulSet and every pod use, are held. */
  predicate AllHeld(sub: Sub, held: set<Secret>) {
    && sub.spec.pair.t in held && HeldOrNone(held, sub.spec.pair.n)
    && (forall p <- sub.pods :: HeldOrNone(held, p.cfg.t) && HeldOrNone(held, p.cfg.n))
    && (sub.template.Some? ==>
          HeldOrNone(held, sub.template.value.cfg.t) && HeldOrNone(held, sub.template.value.cfg.n))
  }

  lemma WithinMeans(sub: Sub, held: set<Secret>)
    requires Within(MessagingChannel, sub, held + {NoSecret}) && Within(NotificationsChannel, sub, held + {NoSecret})
    requires sub.spec.pair.t != NoSecret
    ensures AllHeld(sub, held)
  {
    forall p <- sub.pods ensures HeldOrNone(held, p.cfg.t) && HeldOrNone(held, p.cfg.n) {
      assert OfConfig(MessagingChannel, p.cfg) in held + {NoSecret};
      assert OfConfig(NotificationsChannel, p.cfg) in held + {NoSecret};
    }
  }

  /** Rotation safety over whole runs, up to the first step of a deletion. */
  lemma RotationSafety(c: Cluster, es: seq<Event>)
    requires Fresh(c) && Legal(c, es) && CarefulRun(c, es)
    requires NoRemoval(es)
    ensures var d := Run(c, es); forall s <- d.inp.services :: s in d.subs ==> AllHeld(d.subs[s], d.held)
  {
    FreshInv(c);
    RunKeepsSafety(c, es);
    SafeMeans(Run(c, es));
  }

  lemma SafeMeans(d: Cluster)
    requires Tended(d)
    ensures forall s <- d.inp.services :: s in d.subs ==> AllHeld(d.subs[s], d.held)
  {
    forall s <- d.inp.services | s in d.subs ensures AllHeld(d.subs[s], d.held) {
      assert s in Live(d);
      WithinMeans(d.subs[s], d.held);
    }
  }

  /** The gate is sound in every careful run, deletions included, also when a rotation goes back to an earlier
      secret: an open gate
      means that the StatefulSet, all pods and the pass under way use exactly the expected secrets. */
  lemma GateSound(c: Cluster, es: seq<Event>, s: Service)
    requires Fresh(c) && Legal(c, es) && CarefulRun(c, es)
    requires var d := Run(c, es); s in d.inp.services && s in d.subs && Gate(d.subs[s], Target(d.inp))
    ensures var d := Run(c, es);
            && (forall p <- d.subs[s].pods :: Pair(p.cfg.t, p.cfg.n) == Target(d.inp))
            && (d.subs[s].template.Some? ==>
                  Pair(d.subs[s].template.value.cfg.t, d.subs[s].template.value.cfg.n) == Target(d.inp))
  {
    FreshInv(c);
    RunKeepsSafety(c, es);
    var d := Run(c, es);
    assert s in Live(d);
    GateSettles(d.subs[s], d.config, Target(d.inp));
    assert Clean(MessagingChannel, d.subs[s], d.inp.t);
    assert Clean(NotificationsChannel, d.subs[s], BusSecret(d.inp.bus));
  }
}
