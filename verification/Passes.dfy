/** A parent pass that nothing interrupts, in one piece, and the proof that it is a run of atomic steps. */
module Passes {
  import opened Common
  import opened Cluster
  import Safety

  /** A pass can start, and the bus, if requested, has its secret. */
  predicate CanPass(c: Cluster) {
    c.pass.Idle? && !c.deleting && !c.gone && c.inp.t != NoSecret && c.inp.bus != Pending
  }

  /** After the finalizers are in place and the config is written. */
  function Prepared(c: Cluster): (d: Cluster)
    requires CanPass(c)
  {
    ParentRender(ParentHoldN(ParentReadBus(ParentHoldT(ParentBegin(c)))))
  }

  predicate DbDone(d: Cluster)
    requires d.pass.Active?
  {
    d.pass.status.dbSync == Some(d.pass.inp.job) || DbSync(d.pass.inp.job) in d.finished
  }

  predicate MigrationDone(d: Cluster)
    requires d.pass.Active?
  {
    d.pass.status.migration == Some(d.pass.inp.job) || Migration(d.pass.inp.job) in d.finished
  }

  /** All sub-CRs of the spec created or updated, in any order; other sub-CRs untouched. */
  function AllWritten(subs: map<Service, Sub>, inp: Inputs, config: Config): (r: map<Service, Sub>) {
    map s | s in subs.Keys + inp.services.Keys ::
      if s in inp.services then Written(subs, s, SpecFor(inp, s), config) else subs[s]
  }

  predicate AllOpen(subs: map<Service, Sub>, inp: Inputs) {
    forall s <- inp.services :: s in subs && Gate(subs[s], Target(inp))
  }

  function Deploy(d: Cluster): (r: Cluster)
    requires d.pass.Active?
  {
    var subs := AllWritten(d.subs, d.pass.inp, d.config);
    d.(subs := subs, pass := d.pass.(todo := {}, ready := AllOpen(subs, d.pass.inp)))
  }

  function Finishing(d: Cluster): (r: Cluster)
    requires d.pass.Active?
  {
    ParentComplete(ParentPrune(ParentReleaseAC(ParentReleaseN(ParentReleaseT(Next(d, Swept))))))
  }

  /** The credential is held and the database sync exists. */
  function Syncing(d: Cluster): (r: Cluster)
    requires d.pass.Active?
  {
    ParentStartDbSync(ParentHoldAC(d))
  }

  /** The database sync is recorded and the data migration exists. */
  function Migrating(d: Cluster): (r: Cluster)
    requires d.pass.Active?
  {
    ParentStartMigration(ParentDbSync(d))
  }

  function Initialised(d: Cluster): (r: Cluster)
    requires d.pass.Active?
  {
    ParentMigrate(Migrating(Syncing(Next(d, HashKept))))
  }

  /** The rest of a pass once the database sync exists. */
  function FromSync(h: Cluster): (d: Cluster)
    requires h.pass.Active?
  {
    var m := Migrating(h);
    if !DbDone(h) then Persist(h, h.pass.status)
    else if !MigrationDone(m) then Persist(m, m.pass.status)
    else Finishing(Deploy(ParentMigrate(m)))
  }

  /** The rest of a pass whose input hash has not changed. */
  function FromHash(k: Cluster): (d: Cluster)
    requires k.pass.Active?
  {
    FromSync(Syncing(k))
  }

  /** The state that an uninterrupted pass leaves: it stops after recording a changed hash, it stops while a job
      is outstanding, or it completes. */
  function FullPass(c: Cluster): (d: Cluster)
    requires CanPass(c)
  {
    var p := Prepared(c);
    if p.pass.status.input != Some(p.config) then ParentCheckHash(p) else FromHash(Next(p, HashKept))
  }

  predicate Completes(c: Cluster)
    requires CanPass(c)
  {
    var p := Prepared(c);
    p.pass.status.input == Some(p.config) && DbDone(p) && MigrationDone(p)
  }

  // ---------------------------------------------------------------- as a run

  /** The controllers can get from one state to another with the outside world standing still and every status
      patch landing. */
  ghost predicate Leads(c: Cluster, d: Cluster) {
    exists es: seq<Event> :: Legal(c, es) && Run(c, es) == d && Own(es)
  }

  predicate Own(es: seq<Event>) {
    forall e <- es :: !IsEnv(e) && !e.Crash?
  }

  /** The controllers' own steps are careful. */
  lemma {:induction false} OwnRunIsCareful(c: Cluster, es: seq<Event>)
    requires Legal(c, es) && Own(es)
    ensures Safety.CarefulRun(c, es)
    decreases |es|
  {
    if es != [] {
      assert es[0] in es;
      OwnRunIsCareful(Apply(c, es[0]), es[1..]);
    }
  }

  lemma LeadsStep(c: Cluster, e: Event)
    requires Enabled(c, e) && !IsEnv(e) && !e.Crash?
    ensures Leads(c, Apply(c, e))
  {
    assert [e][1..] == [];
    assert Legal(Apply(c, e), []) && Run(Apply(c, e), []) == Apply(c, e);
    assert Legal(c, [e]) && Run(c, [e]) == Apply(c, e) && Own([e]);
  }

  lemma LeadsTrans(b: Cluster, c: Cluster, d: Cluster)
    requires Leads(b, c) && Leads(c, d)
    ensures Leads(b, d)
  {
    var es: seq<Event> :| Legal(b, es) && Run(b, es) == c && Own(es);
    var fs: seq<Event> :| Legal(c, fs) && Run(c, fs) == d && Own(fs);
    RunAppend(b, es, fs);
    assert Own(es + fs);
  }

  predicate IsParent(e: Event) {
    !IsEnv(e) && !IsSub(e) && !e.Crash?
  }

  lemma ParentLeads(c: Cluster, e: Event, d: Cluster)
    requires IsParent(e) && ParentEnabled(c, e) && ParentApply(c, e) == d
    ensures Leads(c, d)
  {
    LeadsStep(c, e);
  }

  /** Three steps in a row. */
  lemma LeadsThree(c: Cluster, e1: Event, c1: Cluster, e2: Event, c2: Cluster, e3: Event, c3: Cluster)
    requires IsParent(e1) && ParentEnabled(c, e1) && ParentApply(c, e1) == c1
    requires IsParent(e2) && ParentEnabled(c1, e2) && ParentApply(c1, e2) == c2
    requires IsParent(e3) && ParentEnabled(c2, e3) && ParentApply(c2, e3) == c3
    ensures Leads(c, c3)
  {
    ParentLeads(c, e1, c1);
    ParentLeads(c1, e2, c2);
    LeadsTrans(c, c1, c2);
    ParentLeads(c2, e3, c3);
    LeadsTrans(c, c2, c3);
  }

  lemma SecureLeads(c: Cluster)
    requires CanPass(c)
    ensures Leads(c, ParentReadBus(ParentHoldT(ParentBegin(c))))
  {
    var c1 := ParentBegin(c);
    var c2 := ParentHoldT(c1);
    LeadsThree(c, Begin, c1, HoldT, c2, ReadBus, ParentReadBus(c2));
  }

  lemma RenderLeads(c: Cluster)
    requires !c.gone && At(c, BusRead) && c.pass.inp.bus != Pending
    ensures Leads(c, ParentCheckHash(ParentRender(ParentHoldN(c))))
  {
    var c1 := ParentHoldN(c);
    var c2 := ParentRender(c1);
    LeadsThree(c, HoldN, c1, Render, c2, CheckHash, ParentCheckHash(c2));
  }

  lemma PrepareLeads(c: Cluster)
    requires CanPass(c)
    ensures Leads(c, ParentCheckHash(Prepared(c)))
  {
    var b := ParentReadBus(ParentHoldT(ParentBegin(c)));
    RenderLeads(b);
    SecureLeads(c);
    LeadsTrans(c, b, ParentCheckHash(Prepared(c)));
  }

  lemma SyncLeads(c: Cluster)
    requires !c.gone && At(c, HashKept)
    ensures Leads(c, Syncing(c)) && !Syncing(c).gone && At(Syncing(c), HeldAC)
  {
    var h := ParentHoldAC(c);
    ParentLeads(c, HoldAC, h);
    ParentLeads(h, StartDbSync, Syncing(c));
    LeadsTrans(c, h, Syncing(c));
  }

  lemma MigrationLeads(c: Cluster)
    requires !c.gone && At(c, HeldAC) && DbDone(c)
    ensures Leads(c, Migrating(c)) && !Migrating(c).gone && At(Migrating(c), DbSynced)
  {
    var m := ParentDbSync(c);
    ParentLeads(c, RunDbSync, m);
    ParentLeads(m, StartMigration, Migrating(c));
    LeadsTrans(c, m, Migrating(c));
  }

  lemma MigratedLeads(c: Cluster)
    requires !c.gone && At(c, DbSynced) && MigrationDone(c)
    ensures Leads(c, ParentMigrate(c))
  {
    ParentLeads(c, RunMigration, ParentMigrate(c));
  }

  lemma InitLeads(c: Cluster)
    requires !c.gone && At(c, HashKept) && DbDone(c) && MigrationDone(c)
    ensures Leads(c, ParentMigrate(Migrating(Syncing(c))))
  {
    var h := Syncing(c);
    var m := Migrating(h);
    SyncLeads(c);
    MigrationLeads(h);
    LeadsTrans(c, h, m);
    MigratedLeads(m);
    LeadsTrans(c, m, ParentMigrate(m));
  }

  lemma ReleaseLeads(c: Cluster)
    requires !c.gone && At(c, Writing) && c.pass.todo == {}
    ensures var d := ParentReleaseN(ParentReleaseT(Next(c, Swept))); Leads(c, d) && !d.gone && At(d, ReleasedN)
  {
    var c1 := Next(c, Swept);
    var c2 := ParentReleaseT(c1);
    LeadsThree(c, Sweep, c1, ReleaseT, c2, ReleaseN, ParentReleaseN(c2));
  }

  lemma PruneLeads(c: Cluster)
    requires !c.gone && At(c, ReleasedN)
    ensures Leads(c, ParentComplete(ParentPrune(ParentReleaseAC(c))))
  {
    var c1 := ParentReleaseAC(c);
    var c2 := ParentPrune(c1);
    LeadsThree(c, ReleaseAC, c1, Prune, c2, Complete, ParentComplete(c2));
  }

  lemma FinishingLeads(c: Cluster)
    requires !c.gone && At(c, Writing) && c.pass.todo == {}
    ensures Leads(c, Finishing(c))
  {
    var b := ParentReleaseN(ParentReleaseT(Next(c, Swept)));
    ReleaseLeads(c);
    PruneLeads(b);
    LeadsTrans(c, b, Finishing(c));
  }

  function Firsts(order: seq<Service>, k: nat): (r: set<Service>)
    requires k <= |order|
  {
    set s <- order[..k]
  }

  /** The sub-CRs when those in `done` have been written. */
  predicate SubsAfter(subs: map<Service, Sub>, all: map<Service, Sub>, done: set<Service>, r: map<Service, Sub>) {
    && done <= all.Keys
    && r.Keys == subs.Keys + done
    && (forall s <- r :: r[s] == if s in done then all[s] else subs[s])
  }

  predicate OpenAmong(all: map<Service, Sub>, done: set<Service>, expected: Pair) {
    forall s <- done :: s in all && Gate(all[s], expected)
  }

  /** What the loop over the services has done after `k` turns, whatever the order. */
  predicate LoopState(c: Cluster, order: seq<Service>, k: nat, d: Cluster)
    requires c.pass.Active? && k <= |order|
  {
    var all, done := AllWritten(c.subs, c.pass.inp, c.config), Firsts(order, k);
    && SubsAfter(c.subs, all, done, d.subs)
    && d == c.(subs := d.subs, pass := c.pass.(todo := c.pass.todo - done,
                                               ready := c.pass.ready && OpenAmong(all, done, Target(c.pass.inp))))
  }

  lemma FirstsGrow(order: seq<Service>, k: nat, services: set<Service>)
    requires Lists(order, services) && k < |order|
    ensures Firsts(order, k + 1) == Firsts(order, k) + {order[k]} && order[k] !in Firsts(order, k)
  {
    assert order[..k + 1] == order[..k] + [order[k]];
  }

  lemma SubsGrow(subs: map<Service, Sub>, inp: Inputs, config: Config, done: set<Service>, r: map<Service, Sub>,
      s: Service)
    requires SubsAfter(subs, AllWritten(subs, inp, config), done, r) && s in inp.services && s !in done
    ensures var sub := Written(r, s, SpecFor(inp, s), config);
            && sub == AllWritten(subs, inp, config)[s]
            && SubsAfter(subs, AllWritten(subs, inp, config), done + {s}, r[s := sub])
  {
  }

  /** One turn of the loop. */
  lemma LoopTurn(c: Cluster, order: seq<Service>, k: nat, b: Cluster)
    requires At(c, Writing) && Lists(order, c.pass.inp.services.Keys) && k < |order|
    requires LoopState(c, order, k, b)
    ensures LoopState(c, order, k + 1, ParentWriteSub(b, order[k]))
  {
    var s, done := order[k], Firsts(order, k);
    FirstsGrow(order, k, c.pass.inp.services.Keys);
    SubsGrow(c.subs, c.pass.inp, c.config, done, b.subs, s);
    assert c.pass.todo - done - {s} == c.pass.todo - (done + {s});
  }

  lemma LoopStart(c: Cluster, order: seq<Service>)
    requires At(c, Writing)
    ensures LoopState(c, order, 0, c)
  {
    assert Firsts(order, 0) == {} && c.pass.todo - {} == c.pass.todo;
  }

  /** The loop over all the services leaves the same state in every order. */
  lemma LoopDone(c: Cluster, order: seq<Service>, d: Cluster)
    requires At(c, Writing) && c.pass.todo == c.pass.inp.services.Keys && c.pass.ready
    requires Lists(order, c.pass.inp.services.Keys) && LoopState(c, order, |order|, d)
    ensures d == Deploy(c)
  {
    assert order[..|order|] == order;
    assert Firsts(order, |order|) == c.pass.inp.services.Keys;
    assert d.subs == AllWritten(c.subs, c.pass.inp, c.config);
    assert d.pass.ready == AllOpen(d.subs, c.pass.inp);
  }

  lemma WriteEnabled(c: Cluster, order: seq<Service>, k: nat, b: Cluster)
    requires !c.gone && At(c, Writing) && c.pass.todo == c.pass.inp.services.Keys
    requires Lists(order, c.pass.inp.services.Keys) && k < |order| && LoopState(c, order, k, b)
    ensures ParentEnabled(b, WriteSub(order[k]))
  {
    FirstsGrow(order, k, c.pass.inp.services.Keys);
  }

  lemma WriteLeads(b: Cluster, s: Service)
    requires ParentEnabled(b, WriteSub(s))
    ensures Leads(b, ParentWriteSub(b, s))
  {
    ParentLeads(b, WriteSub(s), ParentWriteSub(b, s));
  }

  /** The turns of the loop are steps of a run. */
  lemma {:induction false} LoopLeads(c: Cluster, order: seq<Service>, k: nat) returns (d: Cluster)
    requires !c.gone && At(c, Writing) && c.pass.todo == c.pass.inp.services.Keys
    requires Lists(order, c.pass.inp.services.Keys) && k <= |order|
    ensures LoopState(c, order, k, d) && Leads(c, d)
  {
    if k == 0 {
      d := c;
      LoopStart(c, order);
      LeadsSelf(c);
    } else {
      var b := LoopLeads(c, order, k - 1);
      WriteEnabled(c, order, k - 1, b);
      WriteLeads(b, order[k - 1]);
      LoopTurn(c, order, k - 1, b);
      d := ParentWriteSub(b, order[k - 1]);
      LeadsTrans(c, b, d);
    }
  }

  lemma LeadsSelf(c: Cluster)
    ensures Leads(c, c)
  {
    assert Legal(c, []) && Run(c, []) == c && Own([]);
  }

  lemma DeployLeads(c: Cluster, order: seq<Service>)
    requires !c.gone && At(c, Writing) && c.pass.todo == c.pass.inp.services.Keys && c.pass.ready
    requires Lists(order, c.pass.inp.services.Keys)
    ensures Leads(c, Finishing(Deploy(c)))
  {
    var d := LoopLeads(c, order, |order|);
    LoopDone(c, order, d);
    FinishingLeads(d);
    LeadsTrans(c, d, Finishing(d));
  }

  lemma StopLeads(b: Cluster, c: Cluster)
    requires Leads(b, c) && !c.gone && c.pass.Active?
    ensures Leads(b, Persist(c, c.pass.status))
  {
    ParentLeads(c, Stop, Persist(c, c.pass.status));
    LeadsTrans(b, c, Persist(c, c.pass.status));
  }

  lemma WaitLeads(c: Cluster)
    requires !c.gone && At(c, HashKept) && !(DbDone(c) && MigrationDone(c))
    ensures var h := Syncing(c);
            Leads(c, if !DbDone(c) then Persist(h, h.pass.status)
                     else var m := Migrating(h); Persist(m, m.pass.status))
  {
    var h := Syncing(c);
    SyncLeads(c);
    if !DbDone(c) {
      StopLeads(c, h);
    } else {
      var m := Migrating(h);
      MigrationLeads(h);
      LeadsTrans(c, h, m);
      StopLeads(c, m);
    }
  }

  lemma CompleteLeads(c: Cluster, order: seq<Service>)
    requires !c.gone && At(c, HashKept) && DbDone(c) && MigrationDone(c)
    requires Lists(order, c.pass.inp.services.Keys)
    ensures Leads(c, Finishing(Deploy(ParentMigrate(Migrating(Syncing(c))))))
  {
    var w := ParentMigrate(Migrating(Syncing(c)));
    DeployLeads(w, order);
    InitLeads(c);
    LeadsTrans(c, w, Finishing(Deploy(w)));
  }

  /** An uninterrupted pass, whatever the order of its services, is a run of atomic steps. */
  lemma FullPassIsARun(c: Cluster, order: seq<Service>)
    requires CanPass(c) && Lists(order, c.inp.services.Keys)
    ensures Leads(c, FullPass(c))
  {
    var p := Prepared(c);
    if p.pass.status.input == Some(p.config) {
      var k := Next(p, HashKept);
      if DbDone(p) && MigrationDone(p) {
        CompleteLeads(k, order);
      } else {
        WaitLeads(k);
      }
      PrepareLeads(c);
      LeadsTrans(c, k, FullPass(c));
    } else {
      PrepareLeads(c);
    }
  }
}
