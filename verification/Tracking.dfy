/** What holds in arbitrary runs, rapid rotations included: finalizers are in place before anything names a
    secret, stages come in order, nothing leaks, and the tracked messaging secret keeps its finalizer. */
module Tracking {
  import opened Common
  import opened Cluster
  import opened Invariant

  lemma {:induction false} RunLast(c: Cluster, es: seq<Event>, e: Event)
    requires Fresh(c) && Legal(c, es + [e])
    ensures Legal(c, es) && Inv(Run(c, es)) && Enabled(Run(c, es), e)
    ensures Run(c, es + [e]) == Apply(Run(c, es), e)
  {
    RunPrefix(c, es, [e]);
    FreshInv(c);
    RunKeepsInv(c, es);
    assert [e][1..] == [];
  }

  /** Write-ahead: when a step writes the shared config or a sub-CR spec, both secrets it names already hold the
      transport finalizer. */
  lemma WriteAhead(c: Cluster, es: seq<Event>, e: Event)
    requires Fresh(c) && Legal(c, es + [e])
    ensures var b, d := (RunPrefix(c, es, [e]); Run(c, es)), Run(c, es + [e]);
            && (e.Render? ==> HeldOrNone(b.held, d.config.t) && HeldOrNone(b.held, d.config.n))
            && (e.WriteSub? ==>
                  && e.s in d.subs
                  && HeldOrNone(b.held, d.subs[e.s].spec.pair.t)
                  && HeldOrNone(b.held, d.subs[e.s].spec.pair.n))
  {
    RunLast(c, es, e);
    var b := Run(c, es);
    if e.WriteSub? {
      WrittenSubOk(b.subs, e.s, SpecFor(b.pass.inp, e.s), b.config);
    }
  }

  /** What is written is what the pass has read: the config holds both published secrets and the rest of the input, and
      a sub-CR's spec names them with the replicas and the revision that the Cinder spec asks for. */
  lemma WritesInputs(c: Cluster, es: seq<Event>, e: Event)
    requires Fresh(c) && Legal(c, es + [e])
    ensures var b, d := (RunPrefix(c, es, [e]); Run(c, es)), Run(c, es + [e]);
            e.Render? || e.WriteSub? ==>
              && b.pass.Active? && !b.pass.inp.bus.Pending?
              && var inp := b.pass.inp;
              var n := if inp.bus.Published? then inp.bus.secret else NoSecret;
              && d.config == Config(inp.t, n, inp.rest)
              && (e.WriteSub? ==>
                    && e.s in inp.services && e.s in d.subs
                    && d.subs[e.s].spec == SubSpec(Pair(inp.t, n), inp.services[e.s], inp.rev))
  {
    RunLast(c, es, e);
    var b := Run(c, es);
    if e.WriteSub? {
      WritingMeans(b, e.s);
      WrittenSubOk(b.subs, e.s, SpecFor(b.pass.inp, e.s), b.config);
    }
  }

  lemma {:induction false} FinishedByEvent(c: Cluster, es: seq<Event>, j: Job)
    requires Legal(c, es) && j in Run(c, es).finished && j !in c.finished
    ensures FinishJob(j) in es
    decreases |es|
  {
    if es[0] != FinishJob(j) {
      FinishedStep(c, es[0], j);
      FinishedByEvent(Apply(c, es[0]), es[1..], j);
    }
  }

  lemma FinishedStep(c: Cluster, e: Event, j: Job)
    requires Enabled(c, e) && e != FinishJob(j)
    ensures j in Apply(c, e).finished <==> j in c.finished
  {
    if !IsEnv(e) && !IsSub(e) { ParentLeaves(c, e); }
  }

  /** The sync of a definition ended in the run, and its migration ended later. */
  predicate SyncedThenMigrated(es: seq<Event>, job: nat) {
    exists i, k :: 0 <= i < k < |es| && es[i] == FinishJob(DbSync(job)) && es[k] == FinishJob(Migration(job))
  }

  lemma JobsInOrder(c: Cluster, es: seq<Event>, job: nat)
    requires Fresh(c) && Legal(c, es) && Migration(job) in Run(c, es).finished
    ensures SyncedThenMigrated(es, job)
  {
    FinishedByEvent(c, es, Migration(job));
    var k :| 0 <= k < |es| && es[k] == FinishJob(Migration(job));
    assert es == es[..k] + es[k..];
    RunPrefix(c, es[..k], es[k..]);
    FreshInv(c);
    RunKeepsInv(c, es[..k]);
    FinishedByEvent(c, es[..k], DbSync(job));
    var i :| 0 <= i < k && es[..k][i] == FinishJob(DbSync(job));
    assert es[i] == FinishJob(DbSync(job));
  }

  lemma WritingMeans(b: Cluster, s: Service)
    requires Inv(b) && ParentEnabled(b, WriteSub(s))
    ensures b.pass.Active? && b.config == Rendering(b.pass.inp) && b.pass.status.input == Some(b.config)
    ensures b.pass.status.dbSync == Some(b.pass.inp.job) && b.pass.status.migration == Some(b.pass.inp.job)
    ensures Migration(b.pass.inp.job) in b.finished
  {
  }

  /** Stage order: a sub-CR is written only in a pass whose recorded input hash is the hash of the config now in
      place, after the database sync and then, later in the run, the data migration of that pass's definition have
      ended and the pass has recorded both. */
  lemma StageOrder(c: Cluster, es: seq<Event>, s: Service)
    requires Fresh(c) && Legal(c, es + [WriteSub(s)])
    ensures var b := (RunPrefix(c, es, [WriteSub(s)]); Run(c, es));
            && b.pass.Active?
            && b.config == Rendering(b.pass.inp)
            && b.pass.status.input == Some(b.config)
            && SyncedThenMigrated(es, b.pass.inp.job)
            && b.pass.status.dbSync == Some(b.pass.inp.job) && b.pass.status.migration == Some(b.pass.inp.job)
  {
    RunLast(c, es, WriteSub(s));
    WritingMeans(Run(c, es), s);
    JobsInOrder(c, es, Run(c, es).pass.inp.job);
  }

  /** No leaks: after a completed pass only the tracked and the current secrets hold a finalizer; when all gates
      were open they are exactly the secrets the pass deployed. */
  lemma NoLeaks(c: Cluster, es: seq<Event>)
    requires Fresh(c) && Legal(c, es + [Complete])
    ensures var b, d := (RunPrefix(c, es, [Complete]); Run(c, es)), Run(c, es + [Complete]);
            && b.pass.Active?
            && d.held <= {d.status.t, b.pass.inp.t, Tracked(d.status.n), BusSecret(b.pass.inp.bus)}
            && d.acHeld <= {d.status.ac, b.pass.inp.ac}
            && (b.pass.ready ==>
                  && d.held == {b.pass.inp.t, BusSecret(b.pass.inp.bus)} - {NoSecret}
                  && d.status.t == b.pass.inp.t && Tracked(d.status.n) == BusSecret(b.pass.inp.bus))
  {
    RunLast(c, es, Complete);
    var b, d := Run(c, es), Run(c, es + [Complete]);
    assert StageOk(b.pass, b.held, b.config);
    assert d == ParentComplete(b);
  }

  /** No leaks: from the step that completes the deletion on, no secret holds either finalizer. */
  lemma DeleteReleasesAll(c: Cluster, es: seq<Event>)
    requires Fresh(c) && Legal(c, es) && Delete in es
    ensures Run(c, es).held == {} && Run(c, es).acHeld == {}
  {
    FreshInv(c);
    RunKeepsInv(c, es);
    GoneStays(c, es);
  }

  lemma {:induction false} GoneStays(c: Cluster, es: seq<Event>)
    requires Legal(c, es) && (c.gone || Delete in es)
    ensures Run(c, es).gone
    decreases |es|
  {
    if es != [] {
      assert Apply(c, es[0]).gone == (c.gone || es[0].Delete?) by { GoneStep(c, es[0]); }
      GoneStays(Apply(c, es[0]), es[1..]);
    }
  }

  lemma GoneStep(c: Cluster, e: Event)
    requires Enabled(c, e)
    ensures Apply(c, e).gone == (c.gone || e.Delete?)
  {
    if !IsEnv(e) && !IsSub(e) { ParentLeaves(c, e); }
  }

  // ---------------------------------------------------------------- the tracked messaging secret

  /** The tracked messaging secret: in memory while a pass is under way. */
  function TrackedT(c: Cluster): (s: Secret) {
    if c.pass.Active? then c.pass.status.t else c.status.t
  }

  /** Every step but a lost status patch and the deletion keeps the finalizer on the tracked secret. The tracked
      secret changes only when the pass releases it, with every gate open, and then to the secret that every
      service of the pass has settled on. */
  lemma StepKeepsTracked(c: Cluster, e: Event)
    requires Inv(c) && Enabled(c, e) && !e.Crash? && !IsRemoval(e)
    requires TrackedT(c) in c.held
    ensures TrackedT(Apply(c, e)) in Apply(c, e).held
    ensures TrackedT(Apply(c, e)) != TrackedT(c) ==>
              && e.ReleaseT? && c.pass.ready && TrackedT(Apply(c, e)) == c.pass.inp.t
              && (forall s <- c.pass.inp.services :: s in c.subs ==>
                    c.subs[s].spec.pair == Target(c.pass.inp) && Settled(c.subs[s]))
  {
    if IsEnv(e) {
    } else if IsSub(e) {
    } else {
      ParentKeepsTracked(c, e);
    }
  }

  lemma OtherParentTracks(c: Cluster, e: Event)
    requires Inv(c) && !IsEnv(e) && !IsSub(e) && ParentEnabled(c, e) && !e.Crash? && !IsRemoval(e) && !e.ReleaseT?
    requires TrackedT(c) in c.held
    ensures TrackedT(ParentApply(c, e)) in ParentApply(c, e).held && TrackedT(ParentApply(c, e)) == TrackedT(c)
  {
    match e
    case Begin => case HoldT => case ReadBus => case HoldN => case Render => case CheckHash => case HoldAC =>
    case StartDbSync => case RunDbSync => case StartMigration => case RunMigration => case WriteSub(s) => case Sweep =>
    case ReleaseN => case ReleaseAC => case Prune => case Complete => case Stop =>
  }

  lemma ParentKeepsTracked(c: Cluster, e: Event)
    requires Inv(c) && !IsEnv(e) && !IsSub(e) && ParentEnabled(c, e) && !e.Crash? && !IsRemoval(e)
    requires TrackedT(c) in c.held
    ensures TrackedT(ParentApply(c, e)) in ParentApply(c, e).held
    ensures TrackedT(ParentApply(c, e)) != TrackedT(c) ==>
              && e.ReleaseT? && c.pass.ready && TrackedT(ParentApply(c, e)) == c.pass.inp.t
              && (forall s <- c.pass.inp.services :: s in c.subs ==>
                    c.subs[s].spec.pair == Target(c.pass.inp) && Settled(c.subs[s]))
  {
    if e.ReleaseT? {
      assert Done(c.pass) == c.pass.inp.services.Keys;
    } else {
      OtherParentTracks(c, e);
    }
  }

  predicate Orderly(es: seq<Event>) {
    forall e <- es :: !e.Crash? && !IsRemoval(e)
  }

  /** In arbitrary runs, rapid rotation included: once the tracked messaging secret holds its finalizer, the
      tracked messaging secret holds its finalizer in every later state until the deletion. */
  lemma {:induction false} TrackedStaysHeld(c: Cluster, es: seq<Event>)
    requires Inv(c) && TrackedT(c) in c.held && Legal(c, es) && Orderly(es)
    ensures TrackedT(Run(c, es)) in Run(c, es).held
    decreases |es|
  {
    if es != [] {
      StepKeepsTracked(c, es[0]);
      StepKeepsInv(c, es[0]);
      TrackedStaysHeld(Apply(c, es[0]), es[1..]);
    }
  }

  /** When does the release leave the tracked secret with a finalizer? Exactly when it had one before, or when
      the secret tracked afterwards is the current one. */
  lemma ReleaseTracksHeld(c: Cluster)
    requires Inv(c) && ParentEnabled(c, ReleaseT)
    ensures var d := ParentReleaseT(c);
            d.pass.status.t in d.held <==>
              c.pass.status.t in c.held || c.pass.ready || c.pass.status.t == c.pass.inp.t
                  || c.pass.status.t == NoSecret
  {
  }

  /** From the first completed pass with every gate open until the deletion, whatever is published and wherever
      later passes stop, the tracked messaging secret holds its finalizer. */
  lemma TrackedAfterRotation(c: Cluster, es: seq<Event>, fs: seq<Event>)
    requires Fresh(c) && Legal(c, es + [Complete] + fs) && Orderly(fs)
    requires (RunPrefix(c, es + [Complete], fs); RunPrefix(c, es, [Complete]); Run(c, es).pass.Active? ==>
        Run(c, es).pass.ready)
    ensures var d := Run(c, es + [Complete] + fs); TrackedT(d) in d.held
  {
    RunPrefix(c, es + [Complete], fs);
    RunLast(c, es, Complete);
    NoLeaks(c, es);
    FreshInv(c);
    RunKeepsInv(c, es + [Complete]);
    TrackedStaysHeld(Run(c, es + [Complete]), fs);
  }

  // ---------------------------------------------------------------- exactly when it is held

  /** The tracked messaging secret, if there is one, holds its finalizer. A pass that has just begun may have
      taken up the current secret, which it holds next. */
  predicate TrackedHeld(c: Cluster) {
    match c.pass
    case Idle => HeldOrNone(c.held, c.status.t)
    case Removing(_) => HeldOrNone(c.held, c.status.t)
    case Active(stage, inp, status, _, _) =>
      if stage == Begun then HeldOrNone(c.held, c.status.t)
          && status.t == (if c.status.t == NoSecret then inp.t else c.status.t)
      else status.t in c.held
  }

  /** The one step that loses it: the finalizer of the very first messaging secret cannot be added, and the status
      that already tracks the secret is persisted. */
  predicate Lapses(c: Cluster, e: Event) {
    e.Stop? && At(c, Begun) && c.status.t == NoSecret && c.pass.inp.t !in c.held
  }

  predicate NeverLapses(c: Cluster, es: seq<Event>)
    requires Legal(c, es)
    decreases |es|
  {
    es == [] || (!Lapses(c, es[0]) && NeverLapses(Apply(c, es[0]), es[1..]))
  }

  predicate AlwaysHeld(c: Cluster, es: seq<Event>)
    requires Legal(c, es)
    decreases |es|
  {
    TrackedHeld(c) && (es == [] || AlwaysHeld(Apply(c, es[0]), es[1..]))
  }

  lemma ParentTracksExactly(c: Cluster, e: Event)
    requires Inv(c) && TrackedHeld(c) && !IsEnv(e) && !IsSub(e) && ParentEnabled(c, e) && !e.Crash? && !IsRemoval(e)
    ensures TrackedHeld(ParentApply(c, e)) <==> !Lapses(c, e)
  {
    if c.pass.Active? && !At(c, Begun) {
      ParentKeepsTracked(c, e);
    }
  }

  lemma StepTracksExactly(c: Cluster, e: Event)
    requires Inv(c) && TrackedHeld(c) && Enabled(c, e) && !e.Crash? && !IsRemoval(e)
    ensures TrackedHeld(Apply(c, e)) <==> !Lapses(c, e)
  {
    if !IsEnv(e) && !IsSub(e) { ParentTracksExactly(c, e); }
  }

  lemma {:induction false} HeldExactlyFrom(c: Cluster, es: seq<Event>)
    requires Inv(c) && TrackedHeld(c) && Legal(c, es) && Orderly(es)
    ensures AlwaysHeld(c, es) <==> NeverLapses(c, es)
    decreases |es|
  {
    if es != [] {
      assert es[0] in es;
      StepTracksExactly(c, es[0]);
      StepKeepsInv(c, es[0]);
      if !Lapses(c, es[0]) {
        HeldExactlyFrom(Apply(c, es[0]), es[1..]);
      } else {
        assert !TrackedHeld(Apply(c, es[0]));
      }
    }
  }

  /** In every run of a Cinder up to its deletion, rapid rotation included: the tracked messaging secret holds its
      finalizer in every state, if and only if adding the first finalizer never failed after the secret was tracked. */
  lemma TrackedHeldExactly(c: Cluster, es: seq<Event>)
    requires Fresh(c) && Legal(c, es) && Orderly(es)
    ensures AlwaysHeld(c, es) <==> NeverLapses(c, es)
  {
    FreshInv(c);
    HeldExactlyFrom(c, es);
  }

  // ---------------------------------------------------------------- the other two names

  function StatusNow(c: Cluster): (status: Status) {
    if c.pass.Active? then c.pass.status else c.status
  }

  /** The tracked notifications secret and the tracked credential, if there are any, hold their finalizers. */
  predicate OthersHeld(c: Cluster) {
    HeldOrNone(c.held, Tracked(StatusNow(c).n)) && HeldOrNone(c.acHeld, StatusNow(c).ac)
  }

  /** The names that a step replaces. */
  predicate Replaces(c: Cluster, d: Cluster) {
    || Tracked(StatusNow(d).n) != Tracked(StatusNow(c).n)
    || StatusNow(d).ac != StatusNow(c).ac
  }

  /** A name that was there is replaced only with every gate of the pass open. */
  predicate Allowed(c: Cluster, e: Event) {
    && c.pass.Active?
    && (|| (e.ReleaseN? && (c.pass.ready || Tracked(c.pass.status.n) == NoSecret))
        || (e.ReleaseAC? && (c.pass.ready || c.pass.status.ac == NoSecret)))
  }

  lemma ReleasesKeepOthers(c: Cluster, e: Event)
    requires Inv(c) && OthersHeld(c) && ParentEnabled(c, e) && (e.ReleaseT? || e.ReleaseN? || e.ReleaseAC?)
    ensures OthersHeld(ParentApply(c, e)) && (Replaces(c, ParentApply(c, e)) ==> Allowed(c, e))
  {
    match e
    case ReleaseT => case ReleaseN => case ReleaseAC =>
  }

  lemma PrunesKeepOthers(c: Cluster, e: Event)
    requires Inv(c) && OthersHeld(c) && ParentEnabled(c, e) && (e.Prune? || e.Complete?)
    ensures OthersHeld(ParentApply(c, e)) && !Replaces(c, ParentApply(c, e))
  {
    match e
    case Prune => case Complete =>
  }

  lemma ParentKeepsOthers(c: Cluster, e: Event)
    requires Inv(c) && OthersHeld(c) && !IsEnv(e) && !IsSub(e) && ParentEnabled(c, e) && !e.Crash? && !IsRemoval(e)
    requires !(e.ReleaseT? || e.ReleaseN? || e.ReleaseAC? || e.Prune? || e.Complete?)
    ensures OthersHeld(ParentApply(c, e)) && !Replaces(c, ParentApply(c, e))
  {
    match e
    case Begin => case HoldT => case ReadBus => case HoldN => case Render => case CheckHash => case HoldAC =>
    case StartDbSync => case RunDbSync => case StartMigration => case RunMigration => case WriteSub(s) => case Sweep =>
    case Stop =>
  }

  /** No step but a lost status patch and those of a deletion takes a finalizer off the tracked notifications secret
      or the tracked credential; either is replaced only when there was none or with every gate of the pass open. */
  lemma StepKeepsOthers(c: Cluster, e: Event)
    requires Inv(c) && OthersHeld(c) && Enabled(c, e) && !e.Crash? && !IsRemoval(e)
    ensures OthersHeld(Apply(c, e)) && (Replaces(c, Apply(c, e)) ==> Allowed(c, e))
  {
    if IsEnv(e) {
    } else if IsSub(e) {
    } else if e.ReleaseT? || e.ReleaseN? || e.ReleaseAC? {
      ReleasesKeepOthers(c, e);
    } else if e.Prune? || e.Complete? {
      PrunesKeepOthers(c, e);
    } else {
      ParentKeepsOthers(c, e);
    }
  }

  lemma {:induction false} OthersHeldFrom(c: Cluster, es: seq<Event>)
    requires Inv(c) && OthersHeld(c) && Legal(c, es) && Orderly(es)
    ensures OthersHeld(Run(c, es))
    decreases |es|
  {
    if es != [] {
      assert es[0] in es;
      StepKeepsOthers(c, es[0]);
      StepKeepsInv(c, es[0]);
      OthersHeldFrom(Apply(c, es[0]), es[1..]);
    }
  }

  /** In every run of a Cinder up to its deletion, without exception: the tracked notifications secret and the tracked
      credential hold their finalizers. Neither is tracked before it is held. */
  lemma OthersAlwaysHeld(c: Cluster, es: seq<Event>)
    requires Fresh(c) && Legal(c, es) && Orderly(es)
    ensures OthersHeld(Run(c, es))
  {
    FreshInv(c);
    OthersHeldFrom(c, es);
  }
}
