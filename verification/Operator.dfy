/** The reconcilers as they run: imperative passes over the objects of the namespace. Each pass is proved to be
    a run of the atomic steps of module Cluster, also when some call fails on the way, and to leave exactly the
    state of the one-piece pass when none does. */
module Operator {
  import opened Common
  import opened Cluster
  import opened Invariant
  import opened Passes
  import opened Convergence
  import opened Safety

  /** The controllers do not delete what nobody asked to delete. */
  lemma {:induction false} OwnRunRemovesNothing(c: Cluster, es: seq<Event>)
    requires Inv(c) && !c.deleting && Legal(c, es) && Own(es)
    ensures NoRemoval(es)
    decreases |es|
  {
    if es != [] {
      assert es[0] in es;
      StepKeepsInv(c, es[0]);
      OwnStepRemovesNothing(c, es[0]);
      OwnRunRemovesNothing(Apply(c, es[0]), es[1..]);
    }
  }

  lemma OwnStepRemovesNothing(c: Cluster, e: Event)
    requires Inv(c) && !c.deleting && Enabled(c, e) && !IsEnv(e)
    ensures !IsRemoval(e) && !Apply(c, e).deleting
  {
    if !IsSub(e) { ParentLeaves(c, e); }
  }

  lemma LeadsKeepsSafety(c: Cluster, d: Cluster)
    requires Inv(c) && Tended(c) && !c.deleting && Leads(c, d)
    ensures Inv(d) && Tended(d)
  {
    var es: seq<Event> :| Legal(c, es) && Run(c, es) == d && Own(es);
    OwnRunIsCareful(c, es);
    OwnRunRemovesNothing(c, es);
    RunKeepsSafety(c, es);
  }

  /** A run of the pass so far, and one more step of the parent. */
  lemma Advance(c: Cluster, b: Cluster, e: Event, d: Cluster)
    requires Leads(c, b) && IsParent(e) && ParentEnabled(b, e) && ParentApply(b, e) == d
    ensures Leads(c, d)
  {
    ParentLeads(b, e, d);
    LeadsTrans(c, b, d);
  }

  // Single steps of the parent, each with its own effect.

  lemma AfterHoldT(c: Cluster, b: Cluster)
    requires Leads(c, b) && !b.gone && At(b, Begun)
    ensures Leads(c, ParentHoldT(b))
  {
    Advance(c, b, HoldT, ParentHoldT(b));
  }

  lemma AfterReadBus(c: Cluster, b: Cluster)
    requires Leads(c, b) && !b.gone && At(b, HeldT)
    ensures Leads(c, ParentReadBus(b))
  {
    Advance(c, b, ReadBus, ParentReadBus(b));
  }

  lemma AfterHoldN(c: Cluster, b: Cluster)
    requires Leads(c, b) && !b.gone && At(b, BusRead) && b.pass.inp.bus != Pending
    ensures Leads(c, ParentHoldN(b))
  {
    Advance(c, b, HoldN, ParentHoldN(b));
  }

  lemma AfterSweep(c: Cluster, b: Cluster)
    requires Leads(c, b) && !b.gone && At(b, Writing) && b.pass.todo == {}
    ensures Leads(c, Next(b, Swept))
  {
    Advance(c, b, Sweep, Next(b, Swept));
  }

  lemma AfterReleaseT(c: Cluster, b: Cluster)
    requires Leads(c, b) && !b.gone && At(b, Swept)
    ensures Leads(c, ParentReleaseT(b))
  {
    Advance(c, b, ReleaseT, ParentReleaseT(b));
  }

  lemma AfterPrune(c: Cluster, b: Cluster)
    requires Leads(c, b) && !b.gone && At(b, ReleasedAC)
    ensures Leads(c, ParentPrune(b))
  {
    Advance(c, b, Prune, ParentPrune(b));
  }

  lemma AfterComplete(c: Cluster, b: Cluster)
    requires Leads(c, b) && !b.gone && At(b, Pruned)
    ensures Leads(c, ParentComplete(b))
  {
    Advance(c, b, Complete, ParentComplete(b));
  }

  lemma AfterClearAC(c: Cluster, b: Cluster)
    requires Leads(c, b) && !b.gone && b.pass == Removing(Cleared)
    ensures Leads(c, b.(acHeld := {}, pass := Removing(ClearedBoth)))
  {
    Advance(c, b, ClearAC, b.(acHeld := {}, pass := Removing(ClearedBoth)));
  }

  lemma AfterDelete(c: Cluster, b: Cluster)
    requires Leads(c, b) && !b.gone && b.pass == Removing(ClearedBoth)
    ensures Leads(c, b.(gone := true, pass := Idle))
  {
    Advance(c, b, Delete, b.(gone := true, pass := Idle));
  }

  lemma AfterUnhold(c: Cluster, b: Cluster, x: Secret)
    requires Leads(c, b) && !b.gone && b.pass == Removing(Unholding) && x in Named(b)
    ensures Leads(c, b.(held := b.held - {x}))
  {
    Advance(c, b, Unhold(x), b.(held := b.held - {x}));
  }

  lemma AfterUnholdAC(c: Cluster, b: Cluster, x: Secret)
    requires Leads(c, b) && !b.gone && b.pass == Removing(Unholding) && x in NamedAC(b)
    ensures Leads(c, b.(acHeld := b.acHeld - {x}))
  {
    Advance(c, b, UnholdAC(x), b.(acHeld := b.acHeld - {x}));
  }

  /** The secrets that the status and the spec name, and those that the TransportURLs publish, hold no finalizer. */
  predicate NamedReleased(c: Cluster) {
    && (c.status.t == NoSecret || c.status.t !in c.held) && (c.inp.t == NoSecret || c.inp.t !in c.held)
    && (c.inp.bus.Published? ==> c.inp.bus.secret !in c.held)
    && (c.status.n.Some? ==> c.status.n.value !in c.held)
    && c.status.ac !in c.acHeld && c.inp.ac !in c.acHeld
  }

  /** The config in place and the sub-CRs of all services carry the whole input. */
  predicate Carries(c: Cluster) {
    var n := if c.inp.bus.Published? then c.inp.bus.secret else NoSecret;
    && c.config == Config(c.inp.t, n, c.inp.rest)
    && forall s <- c.inp.services ::
         s in c.subs && c.subs[s].spec == SubSpec(Pair(c.inp.t, n), c.inp.services[s], c.inp.rev)
  }

  lemma CompletedPassCarries(c: Cluster)
    requires CanPass(c) && Completes(c)
    ensures Carries(FullPass(c)) && FullPass(c).inp == c.inp
  {
    PassEnds(c);
    PreparedIs(c);
    DeployedIs(c);
    FinishingKeeps(AllDeployed(c));
    WrittenSpecs(Prepared(c).subs, c.inp, Prepared(c).config);
  }

  lemma WrittenSpecs(subs: map<Service, Sub>, inp: Inputs, config: Config)
    ensures var r := AllWritten(subs, inp, config); forall s <- inp.services :: s in r && r[s].spec == SpecFor(inp, s)
  {
  }

  class Reconcilers {
    // what the API server stores
    var inp: Inputs
    var deleting: bool
    var gone: bool
    var held: set<Secret>
    var acHeld: set<Secret>
    var status: Status
    var config: Config
    var subs: map<Service, Sub>
    var started: set<Job>
    var finished: set<Job>

    // what a pass of the parent has in memory
    var pass: Pass

    /** A Cinder that has just been created. */
    constructor (cinder: Inputs)
      requires InputsOk(cinder) && (cinder.ac == NoSecret || cinder.ac.Credential?)
      ensures Fresh(State()) && inp == cinder
    {
      inp, deleting, gone, held, acHeld := cinder, false, false, {}, {};
      status := Status(NoSecret, None, NoSecret, None, None, None);
      config := Config(NoSecret, NoSecret, 0);
      subs, started, finished, pass := map[], {}, {}, Idle;
    }

    function State(): (c: Cluster)
      reads this
    {
      Cluster(inp, deleting, gone, held, acHeld, status, config, subs, started, finished, pass)
    }

    /** The early return of a pass: the deferred patch. */
    method Return()
      requires pass.Active? && !gone
      modifies this`status, this`pass
      ensures State() == Persist(old(State()), old(pass.status))
      ensures Leads(old(State()), State())
    {
      ghost var c := State();
      status := pass.status;
      pass := Idle;
      ParentLeads(c, Stop, State());
    }

    /** Finalizers on the current secrets, before anything names them. `broken` holds the calls that fail. */
    method SecureTransports(broken: set<Event>) returns (ok: bool)
      requires pass.Idle? && !deleting && !gone && inp.t != NoSecret
      modifies this`status, this`pass, this`held
      ensures Leads(old(State()), State())
      ensures !ok ==> pass.Idle? && (broken != {} || inp.bus == Pending)
      ensures ok ==> inp.bus != Pending && State() == ParentHoldN(ParentReadBus(ParentHoldT(ParentBegin(old(State())))))
    {
      ghost var c := State();
      var early := status;
      if early.t == NoSecret || early.t == inp.t {
        early := early.(t := inp.t);
      }
      pass := Active(Begun, inp, early, {}, true);
      ParentLeads(c, Begin, State());
      if HoldT in broken {
        Leave(c);
        return false;
      }
      ghost var c1 := State();
      held := Add(held, inp.t);
      pass := pass.(stage := HeldT);
      AfterHoldT(c, c1);
      ok := SecureBus(c, broken);
    }

    method Leave(ghost c: Cluster)
      requires pass.Active? && !gone && Leads(c, State())
      modifies this`status, this`pass
      ensures State() == Persist(old(State()), old(pass.status)) && Leads(c, State())
    {
      ghost var b := State();
      Return();
      LeadsTrans(c, b, State());
    }

    method SecureBus(ghost c: Cluster, broken: set<Event>) returns (ok: bool)
      requires !gone && At(State(), HeldT) && Leads(c, State())
      modifies this`status, this`pass, this`held
      ensures Leads(c, State())
      ensures !ok ==> pass.Idle? && (broken != {} || old(pass.inp.bus) == Pending)
      ensures ok ==> old(pass.inp.bus) != Pending && State() == ParentHoldN(ParentReadBus(old(State())))
    {
      ghost var c1 := State();
      var bus := pass.inp.bus;
      if bus != Disabled && pass.status.n == None {
        pass := pass.(status := pass.status.(n := Some(NoSecret)));
      }
      pass := pass.(stage := BusRead);
      AfterReadBus(c, c1);
      if bus == Pending || HoldN in broken {
        Leave(c);
        return false;
      }
      ghost var c2 := State();
      if bus.Published? {
        held := Add(held, bus.secret);
      }
      pass := pass.(stage := Secured);
      AfterHoldN(c, c2);
      ok := true;
    }

    /** Writes the shared config; a changed input hash is recorded and ends the pass. */
    method WriteConfig(ghost c: Cluster, broken: set<Event>) returns (ok: bool)
      requires !gone && At(State(), Secured) && Leads(c, State())
      modifies this`status, this`pass, this`config, this`subs
      ensures Leads(c, State())
      ensures if ok then pass.Active? else pass.Idle?
      ensures broken == {} || ok ==>
                var p := ParentRender(old(State()));
                && (ok <==> p.pass.status.input == Some(p.config))
                && State() == ParentCheckHash(p)
    {
      ghost var c1 := State();
      if Render in broken {
        Leave(c);
        return false;
      }
      var cfg := Config(pass.inp.t, BusSecret(pass.inp.bus), pass.inp.rest);
      config := cfg;
      subs := map s | s in subs :: subs[s].(since := subs[s].since + {cfg});  // history only
      pass := pass.(stage := Rendered);
      Advance(c, c1, Render, State());
      ok := KeepHash(c, cfg);
    }

    method KeepHash(ghost c: Cluster, cfg: Config) returns (ok: bool)
      requires !gone && At(State(), Rendered) && Leads(c, State()) && cfg == Rendering(pass.inp)
      modifies this`status, this`pass
      ensures Leads(c, State())
      ensures State() == ParentCheckHash(old(State()))
      ensures ok == (old(pass.status.input) == Some(cfg)) == pass.Active?
    {
      ghost var b := State();
      ok := pass.status.input == Some(cfg);
      if ok {
        pass := pass.(stage := HashKept);
      } else {
        status := pass.status.(input := Some(cfg));
        pass := Idle;
      }
      Advance(c, b, CheckHash, State());
    }

    /** The credential finalizer, then the database sync and the data migration. */
    method RunJobs(ghost c: Cluster, broken: set<Event>) returns (ok: bool)
      requires !gone && At(State(), HashKept) && Leads(c, State())
      modifies this`status, this`pass, this`acHeld, this`started
      ensures Leads(c, State())
      ensures if ok then pass.Active? else pass.Idle?
      ensures ok ==> DbDone(old(State())) && MigrationDone(old(State()))
      ensures ok ==> State() == ParentMigrate(Migrating(Syncing(old(State()))))
      ensures broken == {} ==> (ok <==> DbDone(old(State())) && MigrationDone(old(State())))
      ensures broken == {} && !ok ==> State() == FromHash(old(State()))
    {
      ok := HoldCredential(c, broken);
      if !ok { return; }
      ok := CreateDbSync(c, broken);
      if !ok { return; }
      if RunDbSync in broken || !(pass.status.dbSync == Some(pass.inp.job) || DbSync(pass.inp.job) in finished) {
        Leave(c);
        return false;
      }
      ok := Migrate(c, broken);
    }

    method HoldCredential(ghost c: Cluster, broken: set<Event>) returns (ok: bool)
      requires !gone && At(State(), HashKept) && Leads(c, State())
      modifies this`status, this`pass, this`acHeld
      ensures Leads(c, State())
      ensures if ok then pass.Active? else pass.Idle?
      ensures broken == {} ==> ok
      ensures ok ==> State() == ParentHoldAC(old(State()))
    {
      if HoldAC in broken {
        Leave(c);
        return false;
      }
      ghost var b := State();
      acHeld := Add(acHeld, pass.inp.ac);
      pass := pass.(stage := HeldAC);
      Advance(c, b, HoldAC, State());
      ok := true;
    }

    method CreateDbSync(ghost c: Cluster, broken: set<Event>) returns (ok: bool)
      requires !gone && At(State(), HeldAC) && Leads(c, State())
      modifies this`status, this`pass, this`started
      ensures Leads(c, State())
      ensures if ok then pass.Active? else pass.Idle?
      ensures broken == {} ==> ok
      ensures ok ==> State() == ParentStartDbSync(old(State()))
    {
      if StartDbSync in broken {
        Leave(c);
        return false;
      }
      ghost var b := State();
      if pass.status.dbSync != Some(pass.inp.job) {
        started := started + {DbSync(pass.inp.job)};
      }
      Advance(c, b, StartDbSync, State());
      ok := true;
    }

    /** The database sync is done: its hash is recorded, and the data migration gets its turn. */
    method Migrate(ghost c: Cluster, broken: set<Event>) returns (ok: bool)
      requires !gone && At(State(), HeldAC) && DbDone(State()) && Leads(c, State())
      modifies this`status, this`pass, this`started
      ensures Leads(c, State())
      ensures if ok then pass.Active? else pass.Idle?
      ensures ok ==> MigrationDone(old(State())) && State() == ParentMigrate(Migrating(old(State())))
      ensures broken == {} ==> (ok <==> MigrationDone(old(State())))
      ensures broken == {} && !ok ==> State() == FromSync(old(State()))
    {
      ghost var b := State();
      pass := pass.(stage := DbSynced, status := pass.status.(dbSync := Some(pass.inp.job)));
      Advance(c, b, RunDbSync, State());
      ok := CreateMigration(c, broken);
      if !ok { return; }
      ok := FinishMigration(c, broken);
    }

    method CreateMigration(ghost c: Cluster, broken: set<Event>) returns (ok: bool)
      requires !gone && At(State(), DbSynced) && Leads(c, State())
      modifies this`status, this`pass, this`started
      ensures Leads(c, State())
      ensures if ok then pass.Active? else pass.Idle?
      ensures broken == {} ==> ok
      ensures ok ==> State() == ParentStartMigration(old(State()))
    {
      if StartMigration in broken {
        Leave(c);
        return false;
      }
      ghost var b := State();
      if pass.status.migration != Some(pass.inp.job) {
        started := started + {Migration(pass.inp.job)};
      }
      Advance(c, b, StartMigration, State());
      ok := true;
    }

    method FinishMigration(ghost c: Cluster, broken: set<Event>) returns (ok: bool)
      requires !gone && At(State(), DbSynced) && Leads(c, State())
      modifies this`status, this`pass
      ensures Leads(c, State())
      ensures if ok then pass.Active? else pass.Idle?
      ensures ok ==> MigrationDone(old(State())) && State() == ParentMigrate(old(State()))
      ensures broken == {} ==> (ok <==> MigrationDone(old(State())))
      ensures broken == {} && !ok ==> State() == Persist(old(State()), old(pass.status))
    {
      var job := pass.inp.job;
      if RunMigration in broken || !(pass.status.migration == Some(job) || Migration(job) in finished) {
        Leave(c);
        return false;
      }
      ghost var b := State();
      pass := pass.(stage := Writing, status := pass.status.(migration := Some(pass.inp.job)),
                    todo := pass.inp.services.Keys, ready := true);
      Advance(c, b, RunMigration, State());
      ok := true;
    }

    /** Creates or updates one sub-CR and returns whether its gate is open. */
    method CreateOrUpdate(s: Service, spec: SubSpec) returns (open: bool)
      modifies this`subs
      ensures subs == old(subs)[s := Written(old(subs), s, spec, config)]
      ensures open == Gate(subs[s], spec.pair)
    {
      if s !in subs {
        subs := subs[s := Sub(spec, 1, 0, Unknown, 0, Pair(NoSecret, NoSecret), None, {}, Resting, false, {config})];
      } else if subs[s].spec != spec {
        var sub := subs[s];
        subs := subs[s := sub.(spec := spec, gen := sub.gen + 1, since := {config})];
      }
      var sub := subs[s];
      open := sub.gen == sub.obs && sub.applied == spec.pair && IsReady(sub);
    }

    /** The loops over the services of the spec: API, scheduler, backups and volumes in their order. */
    method DeployServices(ghost c: Cluster, order: seq<Service>, broken: set<Event>) returns (ok: bool)
      requires !gone && At(State(), Writing) && Leads(c, State())
      requires pass.todo == pass.inp.services.Keys && pass.ready && Lists(order, pass.inp.services.Keys)
      modifies this`status, this`pass, this`subs
      ensures Leads(c, State())
      ensures if ok then pass.Active? else pass.Idle?
      ensures ok ==> State() == Deploy(old(State()))
      ensures broken == {} ==> ok
    {
      ghost var b := State();
      LoopStart(b, order);
      var i := 0;
      while i < |order|
        invariant 0 <= i <= |order|
        invariant pass.Active? && !gone
        invariant LoopState(b, order, i, State()) && Leads(c, State())
      {
        if WriteSub(order[i]) in broken {
          Leave(c);
          return false;
        }
        ghost var before := State();
        WriteEnabled(b, order, i, before);
        LoopTurn(b, order, i, before);
        DeployService(c, order[i]);
        i := i + 1;
      }
      LoopDone(b, order, State());
      ok := true;
    }

    /** One turn of the loops; `pass.ready` is the fold of the gates. */
    method DeployService(ghost c: Cluster, s: Service)
      requires Leads(c, State()) && ParentEnabled(State(), WriteSub(s))
      modifies this`pass, this`subs
      ensures State() == ParentWriteSub(old(State()), s) && Leads(c, State())
    {
      ghost var b := State();
      var open := CreateOrUpdate(s, SubSpec(Target(pass.inp), pass.inp.services[s], pass.inp.rev));
      pass := pass.(todo := pass.todo - {s}, ready := pass.ready && open);
      WriteLeads(b, s);
      LeadsTrans(c, b, State());
    }

    /** The call on the transport finalizer: the tracked name after it. */
    method FinalizeTransport(prev: Secret, cur: Secret, ready: bool) returns (tracked: Secret)
      modifies this`held
      ensures (held, tracked) == Finalize(old(held), prev, cur, ready)
    {
      tracked := cur;
      if prev != NoSecret && prev != cur {
        if ready {
          held := held - {prev};
        } else {
          tracked := prev;
        }
      }
    }

    /** Releases the previous messaging and notifications secrets once every service is ready. */
    method ReleaseTransports(ghost c: Cluster, broken: set<Event>) returns (ok: bool)
      requires !gone && At(State(), Writing) && pass.todo == {} && Leads(c, State())
      modifies this`status, this`pass, this`held
      ensures Leads(c, State())
      ensures if ok then pass.Active? else pass.Idle?
      ensures broken == {} ==> ok
      ensures ok ==> At(State(), ReleasedN) && State() == ParentReleaseN(ParentReleaseT(Next(old(State()), Swept)))
    {
      ghost var c1 := State();
      pass := pass.(stage := Swept);
      AfterSweep(c, c1);
      if ReleaseT in broken {
        Leave(c);
        return false;
      }
      ghost var c2 := State();
      var t := FinalizeTransport(pass.status.t, pass.inp.t, pass.ready);
      pass := pass.(stage := ReleasedT, status := pass.status.(t := t));
      AfterReleaseT(c, c2);
      ok := ReleaseBus(c, broken);
    }

    method ReleaseBus(ghost c: Cluster, broken: set<Event>) returns (ok: bool)
      requires !gone && At(State(), ReleasedT) && Leads(c, State())
      modifies this`status, this`pass, this`held
      ensures Leads(c, State())
      ensures if ok then pass.Active? else pass.Idle?
      ensures broken == {} ==> ok
      ensures ok ==> At(State(), ReleasedN) && State() == ParentReleaseN(old(State()))
    {
      ghost var b := State();
      if ReleaseN in broken {
        Leave(c);
        return false;
      }
      var prev := Tracked(pass.status.n);
      if pass.inp.bus.Published? {
        var n := FinalizeTransport(prev, pass.inp.bus.secret, pass.ready);
        pass := pass.(status := pass.status.(n := Some(n)));
      } else if prev != NoSecret && pass.ready {
        held := held - {prev};
        pass := pass.(status := pass.status.(n := None));
      }
      pass := pass.(stage := ReleasedN);
      Advance(c, b, ReleaseN, State());
      ok := true;
    }

    /** The credential, the strays of both finalizers, and the end of the pass. */
    method ReleaseStrays(ghost c: Cluster, broken: set<Event>) returns (ok: bool)
      requires !gone && At(State(), ReleasedN) && Leads(c, State())
      modifies this`status, this`pass, this`held, this`acHeld
      ensures Leads(c, State()) && pass.Idle?
      ensures broken == {} ==> ok
      ensures ok ==> State() == ParentComplete(ParentPrune(ParentReleaseAC(old(State()))))
    {
      ghost var c1 := State();
      if ReleaseAC in broken {
        Leave(c);
        return false;
      }
      var prev, cur := pass.status.ac, pass.inp.ac;
      var ac := cur;
      if prev != NoSecret && prev != cur {
        if pass.ready {
          acHeld := acHeld - {prev};
        } else {
          ac := prev;
        }
      }
      pass := pass.(stage := ReleasedAC, status := pass.status.(ac := ac));
      Advance(c, c1, ReleaseAC, State());
      ok := PruneAll(c, broken);
    }

    method PruneAll(ghost c: Cluster, broken: set<Event>) returns (ok: bool)
      requires !gone && At(State(), ReleasedAC) && Leads(c, State())
      modifies this`status, this`pass, this`held, this`acHeld
      ensures Leads(c, State()) && pass.Idle?
      ensures broken == {} ==> ok
      ensures ok ==> State() == ParentComplete(ParentPrune(old(State())))
    {
      if Prune in broken {
        Leave(c);
        return false;
      }
      ghost var c1 := State();
      var notifKeep, currentNotifKeep := Tracked(pass.status.n), BusSecret(pass.inp.bus);
      held := set s | s in held && (s == pass.status.t || s == pass.inp.t || s == notifKeep || s == currentNotifKeep);
      pass := pass.(stage := Pruned);
      assert held == c1.held * Keep(c1.pass);
      AfterPrune(c, c1);
      ok := PruneCredentials(c, broken);
    }

    method PruneCredentials(ghost c: Cluster, broken: set<Event>) returns (ok: bool)
      requires !gone && At(State(), Pruned) && Leads(c, State())
      modifies this`status, this`pass, this`acHeld
      ensures Leads(c, State()) && pass.Idle?
      ensures broken == {} ==> ok
      ensures ok ==> State() == ParentComplete(old(State()))
    {
      if Complete in broken {
        Leave(c);
        return false;
      }
      ghost var b := State();
      acHeld := set s | s in acHeld && (s == pass.status.ac || s == pass.inp.ac);
      status := pass.status;
      pass := Idle;
      assert acHeld == b.acHeld * {b.pass.status.ac, b.pass.inp.ac};
      AfterComplete(c, b);
      ok := true;
    }

    /** A pass of the parent. Whatever calls fail, it is a run of atomic steps; with none failing it leaves the
        state of the one-piece pass; `completed` tells that it got to its end. */
    method ReconcileNormal(order: seq<Service>, broken: set<Event>) returns (completed: bool)
      requires pass.Idle? && !deleting && !gone && Lists(order, inp.services.Keys)
      modifies this`status, this`pass, this`held, this`acHeld, this`config, this`subs, this`started
      ensures pass.Idle? && Leads(old(State()), State())
      ensures broken == {} && CanPass(old(State())) ==> State() == FullPass(old(State()))
      ensures completed ==> CanPass(old(State())) && Completes(old(State())) && State() == FullPass(old(State()))
      ensures completed ==> inp == old(inp) && Carries(State())
    {
      ghost var c := State();
      LeadsSelf(c);
      if inp.t == NoSecret {
        return false;
      }
      var ok := SecureTransports(broken);
      if !ok { return false; }
      ok := WriteConfig(c, broken);
      if !ok { return false; }
      assert State() == Next(Prepared(c), HashKept);
      completed := InitAndDeploy(c, order, broken);
      PassAfterHash(c);
      if completed { CompletedPassCarries(c); }
    }

    /** The rest of a pass whose input hash has not changed. */
    static lemma PassAfterHash(c: Cluster)
      requires CanPass(c) && Prepared(c).pass.status.input == Some(Prepared(c).config)
      ensures FullPass(c) == FromHash(Next(Prepared(c), HashKept))
      ensures Completes(c) <==> DbDone(Next(Prepared(c), HashKept)) && MigrationDone(Next(Prepared(c), HashKept))
    {
    }

    static lemma FromHashDone(k: Cluster)
      requires k.pass.Active? && DbDone(k) && MigrationDone(k)
      ensures FromHash(k) == Finishing(Deploy(ParentMigrate(Migrating(Syncing(k)))))
    {
    }

    method InitAndDeploy(ghost c: Cluster, order: seq<Service>, broken: set<Event>) returns (completed: bool)
      requires !gone && At(State(), HashKept) && Leads(c, State()) && Lists(order, pass.inp.services.Keys)
      modifies this`status, this`pass, this`held, this`acHeld, this`subs, this`started
      ensures pass.Idle? && Leads(c, State())
      ensures broken == {} || completed ==> State() == FromHash(old(State()))
      ensures completed ==> DbDone(old(State())) && MigrationDone(old(State()))
    {
      ghost var k := State();
      var ok := RunJobs(c, broken);
      if !ok { return false; }
      FromHashDone(k);
      completed := DeployAndRelease(c, order, broken);
    }

    method DeployAndRelease(ghost c: Cluster, order: seq<Service>, broken: set<Event>) returns (completed: bool)
      requires !gone && At(State(), Writing) && Leads(c, State())
      requires pass.todo == pass.inp.services.Keys && pass.ready && Lists(order, pass.inp.services.Keys)
      modifies this`status, this`pass, this`held, this`acHeld, this`subs
      ensures pass.Idle? && Leads(c, State())
      ensures broken == {} ==> completed
      ensures completed ==> State() == Finishing(Deploy(old(State())))
    {
      var ok := DeployServices(c, order, broken);
      if !ok { return false; }
      ok := ReleaseTransports(c, broken);
      if !ok { return false; }
      completed := ReleaseStrays(c, broken);
    }

    /** Everything that a pass keeps, for a caller that knows the invariants. */
    method ReconcileSafely(order: seq<Service>, broken: set<Event>) returns (completed: bool)
      requires pass.Idle? && !deleting && !gone && Lists(order, inp.services.Keys)
      requires Inv(State()) && Tended(State())
      modifies this`status, this`pass, this`held, this`acHeld, this`config, this`subs, this`started
      ensures pass.Idle? && Inv(State()) && Tended(State())
      ensures completed && AllOpen(subs, inp) ==>
                status.t == inp.t && held == {inp.t, BusSecret(inp.bus)} - {NoSecret}
    {
      ghost var c := State();
      completed := ReconcileNormal(order, broken);
      LeadsKeepsSafety(c, State());
      if completed && AllOpen(subs, inp) {
        CompletedPassRotates(c);
      }
    }

    static lemma CompletedPassRotates(c: Cluster)
      requires Inv(c) && CanPass(c) && Completes(c) && AllOpen(FullPass(c).subs, c.inp)
      ensures Rotated(FullPass(c)) && FullPass(c).inp == c.inp
    {
      CompletingPass(c);
    }

    /** A pass of a sub-controller on its sub-CR. The conditions are reset and the generation is observed in
        memory; the first pass adds the finalizer and returns. Whatever fails, the applied hash is the old one
        unless the deployment is reported ready, and it is reported ready only when all pods run the template of
        this very pass. */
    method ReconcileService(s: Service, broken: set<Event>)
      requires s in subs && subs[s].work.Resting?
      modifies this`subs
      ensures Leads(old(State()), State()) && subs.Keys == old(subs).Keys
      ensures forall x <- subs :: x != s ==> subs[x] == old(subs)[x]
      ensures broken == {} ==> State() == OnSub(old(State()), s, SubPass(old(subs[s]), config))
      ensures var before, after := old(subs[s]), subs[s];
              && after.obs == before.gen && after.spec == before.spec && after.gen == before.gen && after.registered
              && (!before.registered ==> after == before.(obs := before.gen, deployed := Unknown, registered := true))
              && (after.deployed != True ==> after.applied == before.applied)
              && (after.deployed == True ==>
                    && after.applied == before.spec.pair && after.count == before.spec.replicas
                    && after.template == Some(Template(before.spec.pair, config))
                        && after.pods == {after.template.value})
    {
      ghost var c := State();
      var instance := subs[s];
      var isNew := !instance.registered;
      instance := instance.(obs := instance.gen, deployed := Unknown, registered := true);
      if isNew {
        subs := subs[s := instance];
        QuitIsARun(c, s);
        return;
      }
      var inputSecretHash := instance.spec.pair;
      if SubLoad(s) in broken || SubDeploy(s) in broken {
        subs := subs[s := instance];
        QuitIsARun(c, s);
        return;
      }
      var template := Template(inputSecretHash, config);
      instance := instance.(template := Some(template));
      if SubStop(s) in broken {
        subs := subs[s := instance];
        QuitsDeployed(c, s);
        return;
      }
      var ready := instance.pods == {template};
      if ready {
        instance := instance.(deployed := True, count := instance.spec.replicas);
      } else {
        instance := instance.(deployed := False);
      }
      if instance.deployed == True {
        instance := instance.(applied := inputSecretHash);
      }
      subs := subs[s := instance];
      SubPassIsARun(c, s);
    }

    /** A sub pass that returns between the StatefulSet and its report. */
    static lemma QuitsDeployed(c: Cluster, s: Service)
      requires s in c.subs && c.subs[s].work.Resting? && c.subs[s].registered
      ensures var sub := c.subs[s];
              Leads(c, OnSub(c, s, sub.(obs := sub.gen, deployed := Unknown,
                                        template := Some(Template(sub.spec.pair, c.config)))))
    {
      var sub := c.subs[s];
      var s3 := SubApply(SubRead(SubStart(sub), c.config));
      var r := sub.(obs := sub.gen, deployed := Unknown, template := Some(Template(sub.spec.pair, c.config)));
      SubPassDeploys(c, s);
      SubChain(c, s, s3, SubStop(s), r);
      LeadsTrans(c, OnSub(c, s, s3), OnSub(c, s, r));
    }

    // ---------------------------------------------------------------- deletion

    /** Ends a deletion that failed on the way; it is taken up again later. */
    method GiveUp(ghost c: Cluster)
      requires pass.Removing? && !gone && Leads(c, State())
      modifies this`pass
      ensures pass.Idle? && Leads(c, State())
    {
      ghost var b := State();
      pass := Idle;
      Advance(c, b, Stop, State());
    }

    /** Takes the credential finalizer off the named secrets, up to the first call that fails. */
    method RemoveCredentialFinalizers(ghost c: Cluster, names: seq<Secret>, broken: set<Event>) returns (ok: bool)
      requires pass == Removing(Unholding) && !gone && Leads(c, State())
      requires forall x <- names :: x in NamedAC(State())
      modifies this`acHeld
      ensures Leads(c, State()) && acHeld <= old(acHeld)
      ensures (forall x <- names :: UnholdAC(x) !in broken) ==> ok
      ensures ok ==> acHeld == old(acHeld) - (set x <- names)
    {
      var i := 0;
      while i < |names|
        invariant 0 <= i <= |names|
        invariant acHeld == old(acHeld) - (set x <- names[..i])
        invariant Leads(c, State())
      {
        if UnholdAC(names[i]) in broken {
          return false;
        }
        ghost var b := State();
        acHeld := acHeld - {names[i]};
        assert names[..i + 1] == names[..i] + [names[i]] && names[i] in names;
        AfterUnholdAC(c, b, names[i]);
        i := i + 1;
      }
      assert names[..i] == names;
      ok := true;
    }

    /** Takes the transport finalizer off the named secrets, up to the first call that fails. */
    method RemoveFinalizers(ghost c: Cluster, names: seq<Secret>, broken: set<Event>) returns (ok: bool)
      requires pass == Removing(Unholding) && !gone && Leads(c, State())
      requires forall x <- names :: x in Named(State())
      modifies this`held
      ensures Leads(c, State()) && held <= old(held)
      ensures (forall x <- names :: Unhold(x) !in broken) ==> ok
      ensures ok ==> held == old(held) - (set x <- names)
    {
      var i := 0;
      while i < |names|
        invariant 0 <= i <= |names|
        invariant held == old(held) - (set x <- names[..i])
        invariant Leads(c, State())
      {
        if Unhold(names[i]) in broken {
          return false;
        }
        ghost var b := State();
        held := held - {names[i]};
        assert names[..i + 1] == names[..i] + [names[i]] && names[i] in names;
        AfterUnhold(c, b, names[i]);
        i := i + 1;
      }
      assert names[..i] == names;
      ok := true;
    }

    /** Clears the strays of both finalizers and lets the CR go. */
    method ClearAndRelease(ghost c: Cluster, broken: set<Event>) returns (completed: bool)
      requires pass == Removing(Unholding) && !gone && Leads(c, State())
      modifies this`held, this`acHeld, this`gone, this`pass
      ensures Leads(c, State()) && pass.Idle? && held <= old(held) && acHeld <= old(acHeld)
      ensures completed <==> gone
      ensures completed ==> held == {} && acHeld == {}
      ensures broken == {} ==> completed
    {
      if Clear in broken {
        GiveUp(c);
        return false;
      }
      ghost var b := State();
      held, pass := {}, Removing(Cleared);
      Advance(c, b, Clear, State());
      completed := ClearCredentials(c, broken);
    }

    method ClearCredentials(ghost c: Cluster, broken: set<Event>) returns (completed: bool)
      requires pass == Removing(Cleared) && !gone && Leads(c, State())
      modifies this`acHeld, this`gone, this`pass
      ensures Leads(c, State()) && pass.Idle? && acHeld <= old(acHeld)
      ensures completed <==> gone
      ensures completed ==> acHeld == {}
      ensures broken == {} ==> completed
    {
      if ClearAC in broken {
        GiveUp(c);
        return false;
      }
      ghost var b := State();
      acHeld, pass := {}, Removing(ClearedBoth);
      AfterClearAC(c, b);
      b := State();
      gone, pass := true, Idle;
      AfterDelete(c, b);
      completed := true;
    }

    /** The deletion: the credential and the transport secrets known by name, then every stray; the CR goes last.
        Every call may fail: the steps taken so far are a run, only finalizers are gone, and the invariant holds,
        so that the deletion can be taken up again. */
    method ReconcileDelete(broken: set<Event>) returns (completed: bool)
      requires pass.Idle? && deleting && !gone
      modifies this`held, this`acHeld, this`gone, this`pass
      ensures Leads(old(State()), State()) && pass.Idle? && held <= old(held) && acHeld <= old(acHeld)
      ensures Inv(old(State())) ==> Inv(State())
      ensures completed <==> gone
      ensures completed ==> held == {} && acHeld == {}
      ensures broken == {} ==> completed
      ensures (forall x: Secret :: Unhold(x) !in broken && UnholdAC(x) !in broken) ==> NamedReleased(State())
    {
      ghost var c := State();
      completed := TakeFinalizersOff(broken);
      if Inv(c) { LeadsKeepsInv(c, State()); }
    }

    method TakeFinalizersOff(broken: set<Event>) returns (completed: bool)
      requires pass.Idle? && deleting && !gone
      modifies this`held, this`acHeld, this`gone, this`pass
      ensures Leads(old(State()), State()) && pass.Idle? && held <= old(held) && acHeld <= old(acHeld)
      ensures completed <==> gone
      ensures completed ==> held == {} && acHeld == {}
      ensures broken == {} ==> completed
      ensures (forall x: Secret :: Unhold(x) !in broken && UnholdAC(x) !in broken) ==> NamedReleased(State())
    {
      ghost var c := State();
      pass := Removing(Unholding);
      ParentLeads(c, BeginDelete, State());
      completed := Unname(c, broken);
      if completed {
        completed := ClearAndRelease(c, broken);
      } else {
        GiveUp(c);
      }
    }

    method Unname(ghost c: Cluster, broken: set<Event>) returns (ok: bool)
      requires pass == Removing(Unholding) && !gone && Leads(c, State())
      modifies this`held, this`acHeld
      ensures Leads(c, State()) && held <= old(held) && acHeld <= old(acHeld)
      ensures broken == {} ==> ok
      ensures ok ==> NamedReleased(State())
      ensures (forall x: Secret :: Unhold(x) !in broken && UnholdAC(x) !in broken) ==> ok
    {
      ok := RemoveCredentialFinalizers(c, [status.ac, inp.ac], broken);
      if !ok { return; }
      var names := [status.t, inp.t] + (if inp.bus.Published? then [inp.bus.secret] else [])
                   + (if status.n.Some? then [status.n.value] else []);
      ok := RemoveFinalizers(c, names, broken);
    }
  }
}
