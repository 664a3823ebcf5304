/** The state of one namespace that runs one Cinder CR, and every atomic step that the parent
    controller, the sub-controllers, the StatefulSet controller and the outside world can take.

    A pass of a controller is not atomic: it is a sequence of steps, one for each write to the API
    server, and the steps of all other actors may fall between any two of them. What a pass keeps in
    memory between its steps (the fetched spec, the status that the deferred patch will persist, the
    fold of the readiness gates) is part of the state: `Pass` for the parent, `Work` for a sub-CR.
 */
module Cluster {
  import opened Common

  /** A secret name. The empty name is `NoSecret`; the secrets of the messaging TransportURL, those of
      the notifications TransportURL and the application credentials never share a name. */
  datatype Secret = NoSecret | Messaging(id: nat) | Notifications(id: nat) | Credential(id: nat)

  /** The notifications bus: not requested, requested without a secret yet, or published. */
  datatype Bus = Disabled | Pending | Published(secret: Secret)

  type Service = string

  /** What a pass of the parent reads at its start: the Cinder spec and the two TransportURLs.
      `rev` stands for the rest of the sub-CR specs, `job` for the job definitions, `rest` for all
      rendered input other than the two transport URLs; `services` maps a deployed service to its replicas. */
  datatype Inputs = Inputs(t: Secret, bus: Bus, ac: Secret, services: map<Service, nat>,
                           rev: nat, job: nat, rest: nat)

  /** The content of the shared config secret. Its hash is injective, so the content is its own hash. */
  datatype Config = Config(t: Secret, n: Secret, rest: nat)

  /** The hashed pair of secret names: `expectedInputHash` and `AppliedInputSecretHash`. */
  datatype Pair = Pair(t: Secret, n: Secret)

  datatype SubSpec = SubSpec(pair: Pair, replicas: nat, rev: nat)

  /** A pod template: CONFIG_HASH is the hash of the secret names and of the config read with them. */
  datatype Template = Template(pair: Pair, cfg: Config)

  datatype Condition = Unknown | True | False

  /** The pass of a sub-controller that is under way on a sub-CR, with what it has read so far. */
  datatype Work =
    | Resting
    | Started(gen: nat, pair: Pair)
    | Loaded(gen: nat, pair: Pair, cfg: Config)
    | Deployed(gen: nat, pair: Pair, cfg: Config)

  /** A sub-CR with its StatefulSet and pods. `deployed` is the DeploymentReady condition; `pods` holds
      the templates that some pod of the service runs. `registered` tells that a pass has put its finalizer on
      the sub-CR, which the first one does before it returns. `since` is a history variable: every shared config
      that has been current since this generation of the spec was written. */
  datatype Sub = Sub(spec: SubSpec, gen: nat, obs: nat, deployed: Condition, count: nat, applied: Pair,
                     template: Option<Template>, pods: set<Template>, work: Work, registered: bool, since: set<Config>)

  /** The tracked values and recorded hashes in the Cinder status. */
  datatype Status = Status(t: Secret, n: Option<Secret>, ac: Secret,
                           input: Option<Config>, dbSync: Option<nat>, migration: Option<nat>)

  /** How far a parent pass has come. The order of the constructors is the order of the pass. */
  datatype Stage =
    | Begun | HeldT | BusRead | Secured | Rendered | HashKept | HeldAC | DbSynced | Writing | Swept
    | ReleasedT | ReleasedN | ReleasedAC | Pruned

  /** How far a pass over a Cinder that is being deleted has come. */
  datatype Removal = Unholding | Cleared | ClearedBoth

  datatype Pass =
    | Idle
    | Active(stage: Stage, inp: Inputs, status: Status, todo: set<Service>, ready: bool)
    | Removing(progress: Removal)

  datatype Job = DbSync(def: nat) | Migration(def: nat)

  datatype Cluster = Cluster(inp: Inputs, deleting: bool, gone: bool, held: set<Secret>, acHeld: set<Secret>,
                             status: Status, config: Config, subs: map<Service, Sub>,
                             started: set<Job>, finished: set<Job>, pass: Pass)

  datatype Event =
      // the outside world
    | Publish(t: Secret) | SetBus(bus: Bus) | SetCredential(ac: Secret)
    | AddService(s: Service, replicas: nat) | RemoveService(s: Service) | Edit(rev: nat, job: nat, rest: nat)
    | Collect(s: Service) | FinishJob(run: Job) | RequestDelete
      // the parent controller
    | Begin | HoldT | ReadBus | HoldN | Render | CheckHash | HoldAC
    | StartDbSync | RunDbSync | StartMigration | RunMigration
    | WriteSub(s: Service) | Sweep | ReleaseT | ReleaseN | ReleaseAC | Prune | Complete | Stop | Crash
    | BeginDelete | Unhold(x: Secret) | UnholdAC(x: Secret) | Clear | ClearAC | Delete
      // the sub-controllers and the StatefulSet controller
    | SubBegin(s: Service) | SubLoad(s: Service) | SubDeploy(s: Service)
    | SubFinish(s: Service, count: nat, up: bool) | SubStop(s: Service)
    | Roll(s: Service, pods: set<Template>)

  // ---------------------------------------------------------------- small readings of the state

  function BusSecret(bus: Bus): (n: Secret) {
    if bus.Published? then bus.secret else NoSecret
  }

  /** The tracked notifications secret: a nil pointer and an empty name both track nothing. */
  function Tracked(n: Option<Secret>): (r: Secret) {
    if n.Some? then n.value else NoSecret
  }

  function Target(inp: Inputs): (p: Pair) {
    Pair(inp.t, BusSecret(inp.bus))
  }

  function Rendering(inp: Inputs): (cfg: Config) {
    Config(inp.t, BusSecret(inp.bus), inp.rest)
  }

  function Rank(stage: Stage): (r: nat) {
    match stage
    case Begun => 0
    case HeldT => 1
    case BusRead => 2
    case Secured => 3
    case Rendered => 4
    case HashKept => 5
    case HeldAC => 6
    case DbSynced => 7
    case Writing => 8
    case Swept => 9
    case ReleasedT => 10
    case ReleasedN => 11
    case ReleasedAC => 12
    case Pruned => 13
  }

  /** `IsReady` of every sub-CR kind. */
  predicate IsReady(sub: Sub) {
    && sub.gen == sub.obs
    && sub.count == sub.spec.replicas
    && (sub.deployed == True || (sub.deployed == False && sub.spec.replicas == 0))
  }

  /** The per-service gate that a parent pass folds into `allServicesReady`. */
  predicate Gate(sub: Sub, expected: Pair) {
    && sub.gen == sub.obs
    && sub.applied == expected
    && IsReady(sub)
  }

  function Add(held: set<Secret>, s: Secret): (r: set<Secret>) {
    if s == NoSecret then held else held + {s}
  }

  /** `FinalizeSecretRotation`: the finalizer holders and the tracked name after the call. */
  function Finalize(held: set<Secret>, prev: Secret, cur: Secret, ready: bool): (r: (set<Secret>, Secret)) {
    if prev == NoSecret || prev == cur then (held, cur)
    else if ready then (held - {prev}, cur)
    else (held, prev)
  }

  // ---------------------------------------------------------------- steps of the parent

  function Next(c: Cluster, stage: Stage): (d: Cluster)
    requires c.pass.Active?
  {
    c.(pass := c.pass.(stage := stage))
  }

  /** Any return of a pass: the deferred patch persists the status as the pass left it. */
  function Persist(c: Cluster, status: Status): (d: Cluster) {
    c.(status := status, pass := Idle)
  }

  /** The pass reads its inputs. The status is tracked early only when it is empty (or already equal). */
  function ParentBegin(c: Cluster): (d: Cluster) {
    var status := if c.status.t == NoSecret then c.status.(t := c.inp.t) else c.status;
    c.(pass := Active(Begun, c.inp, status, {}, true))
  }

  function ParentHoldT(c: Cluster): (d: Cluster)
    requires c.pass.Active?
  {
    Next(c, HeldT).(held := Add(c.held, c.pass.inp.t))
  }

  /** Requesting the bus turns a nil tracked name into an empty one before anything else looks at it. */
  function ParentReadBus(c: Cluster): (d: Cluster)
    requires c.pass.Active?
  {
    var status := if c.pass.inp.bus != Disabled && c.pass.status.n == None then c.pass.status.(n := Some(NoSecret))
                  else c.pass.status;
    c.(pass := c.pass.(stage := BusRead, status := status))
  }

  function ParentHoldN(c: Cluster): (d: Cluster)
    requires c.pass.Active?
  {
    Next(c, Secured).(held := Add(c.held, BusSecret(c.pass.inp.bus)))
  }

  /** Writes the shared config. Every sub-CR may be reconciled against it from now on. */
  function ParentRender(c: Cluster): (d: Cluster)
    requires c.pass.Active?
  {
    var cfg := Rendering(c.pass.inp);
    Next(c, Rendered).(config := cfg,
                       subs := map s | s in c.subs :: c.subs[s].(since := c.subs[s].since + {cfg}))
  }

  /** A changed input hash is recorded and ends the pass. */
  function ParentCheckHash(c: Cluster): (d: Cluster)
    requires c.pass.Active?
  {
    var cfg := Rendering(c.pass.inp);
    if c.pass.status.input == Some(cfg) then Next(c, HashKept)
    else Persist(c, c.pass.status.(input := Some(cfg)))
  }

  function ParentHoldAC(c: Cluster): (d: Cluster)
    requires c.pass.Active?
  {
    Next(c, HeldAC).(acHeld := Add(c.acHeld, c.pass.inp.ac))
  }

  /** `DoJob` creates the job unless its definition is the recorded one. */
  function ParentStartDbSync(c: Cluster): (d: Cluster)
    requires c.pass.Active?
  {
    var job := c.pass.inp.job;
    if c.pass.status.dbSync == Some(job) then c else c.(started := c.started + {DbSync(job)})
  }

  function ParentStartMigration(c: Cluster): (d: Cluster)
    requires c.pass.Active?
  {
    var job := c.pass.inp.job;
    if c.pass.status.migration == Some(job) then c else c.(started := c.started + {Migration(job)})
  }

  function ParentDbSync(c: Cluster): (d: Cluster)
    requires c.pass.Active?
  {
    c.(pass := c.pass.(stage := DbSynced, status := c.pass.status.(dbSync := Some(c.pass.inp.job))))
  }

  function ParentMigrate(c: Cluster): (d: Cluster)
    requires c.pass.Active?
  {
    c.(pass := c.pass.(stage := Writing, status := c.pass.status.(migration := Some(c.pass.inp.job)),
                       todo := c.pass.inp.services.Keys, ready := true))
  }

  /** The sub-CR after create-or-update: only a changed spec starts a new generation. */
  function Written(subs: map<Service, Sub>, s: Service, spec: SubSpec, config: Config): (r: Sub) {
    if s !in subs then
      Sub(spec, 1, 0, Unknown, 0, Pair(NoSecret, NoSecret), None, {}, Resting, false, {config})
    else if subs[s].spec == spec then
      subs[s]
    else
      subs[s].(spec := spec, gen := subs[s].gen + 1, since := {config})
  }

  function SpecFor(inp: Inputs, s: Service): (r: SubSpec)
    requires s in inp.services
  {
    SubSpec(Target(inp), inp.services[s], inp.rev)
  }

  /** Creates or updates one sub-CR and folds its gate. */
  function ParentWriteSub(c: Cluster, s: Service): (d: Cluster)
    requires c.pass.Active? && s in c.pass.inp.services
  {
    var sub := Written(c.subs, s, SpecFor(c.pass.inp, s), c.config);
    c.(subs := c.subs[s := sub],
       pass := c.pass.(todo := c.pass.todo - {s}, ready := c.pass.ready && Gate(sub, Target(c.pass.inp))))
  }

  function ParentReleaseT(c: Cluster): (d: Cluster)
    requires c.pass.Active?
  {
    var r := Finalize(c.held, c.pass.status.t, c.pass.inp.t, c.pass.ready);
    c.(held := r.0, pass := c.pass.(stage := ReleasedT, status := c.pass.status.(t := r.1)))
  }

  function ParentReleaseN(c: Cluster): (d: Cluster)
    requires c.pass.Active?
  {
    var prev := Tracked(c.pass.status.n);
    if c.pass.inp.bus.Published? then
      var r := Finalize(c.held, prev, c.pass.inp.bus.secret, c.pass.ready);
      c.(held := r.0, pass := c.pass.(stage := ReleasedN, status := c.pass.status.(n := Some(r.1))))
    else if prev != NoSecret && c.pass.ready then
      c.(held := c.held - {prev}, pass := c.pass.(stage := ReleasedN, status := c.pass.status.(n := None)))
    else
      Next(c, ReleasedN)
  }

  function ParentReleaseAC(c: Cluster): (d: Cluster)
    requires c.pass.Active?
  {
    var r := Finalize(c.acHeld, c.pass.status.ac, c.pass.inp.ac, c.pass.ready);
    c.(acHeld := r.0, pass := c.pass.(stage := ReleasedAC, status := c.pass.status.(ac := r.1)))
  }

  /** The secrets that a completed pass lets keep the transport finalizer. */
  function Keep(pass: Pass): (r: set<Secret>)
    requires pass.Active?
  {
    {pass.status.t, pass.inp.t, Tracked(pass.status.n), BusSecret(pass.inp.bus)}
  }

  function ParentPrune(c: Cluster): (d: Cluster)
    requires c.pass.Active?
  {
    Next(c, Pruned).(held := c.held * Keep(c.pass))
  }

  function ParentComplete(c: Cluster): (d: Cluster)
    requires c.pass.Active?
  {
    Persist(c, c.pass.status).(acHeld := c.acHeld * {c.pass.status.ac, c.pass.inp.ac})
  }

  // ---------------------------------------------------------------- deletion

  /** The secrets that `reconcileDelete` releases by name, before it clears all others. */
  function Named(c: Cluster): (r: set<Secret>) {
    {c.status.t, c.inp.t, BusSecret(c.inp.bus), Tracked(c.status.n)}
  }

  function NamedAC(c: Cluster): (r: set<Secret>) {
    {c.status.ac, c.inp.ac}
  }

  // ---------------------------------------------------------------- steps on one sub-CR

  function SubStart(sub: Sub): (r: Sub) {
    sub.(work := Started(sub.gen, sub.spec.pair))
  }

  /** Reads the shared config that goes into the service's own config and into CONFIG_HASH. */
  function SubRead(sub: Sub, config: Config): (r: Sub)
    requires sub.work.Started?
  {
    sub.(work := Loaded(sub.work.gen, sub.work.pair, config))
  }

  function SubApply(sub: Sub): (r: Sub)
    requires sub.work.Loaded?
  {
    sub.(work := Deployed(sub.work.gen, sub.work.pair, sub.work.cfg),
         template := Some(Template(sub.work.pair, sub.work.cfg)))
  }

  /** The end of a sub pass: the applied hash is recorded only when the deployment is ready. */
  function SubReport(sub: Sub, count: nat, up: bool): (r: Sub)
    requires sub.work.Deployed?
  {
    sub.(obs := sub.work.gen, count := count, deployed := if up then True else False,
         applied := if up then sub.work.pair else sub.applied, work := Resting)
  }

  /** An early return: the conditions were reset, the generation was observed and the finalizer is there. */
  function SubQuit(sub: Sub): (r: Sub)
    requires !sub.work.Resting?
  {
    sub.(obs := sub.work.gen, deployed := Unknown, work := Resting, registered := true)
  }

  function SubRoll(sub: Sub, pods: set<Template>): (r: Sub) {
    sub.(pods := pods)
  }

  function OnSub(c: Cluster, s: Service, sub: Sub): (d: Cluster) {
    c.(subs := c.subs[s := sub])
  }

  // ---------------------------------------------------------------- guards and effects

  predicate At(c: Cluster, stage: Stage) {
    c.pass.Active? && c.pass.stage == stage
  }

  predicate EnvEnabled(c: Cluster, e: Event) {
    match e
    case Publish(t) => t.Messaging?
    case SetBus(bus) => bus.Published? ==> bus.secret.Notifications?
    case SetCredential(ac) => ac == NoSecret || ac.Credential?
    case AddService(s, k) => k >= 1
    case RemoveService(s) => true
    case Edit(_, _, _) => true
    case Collect(s) => s !in c.inp.services
    case FinishJob(run) => run in c.started
    case RequestDelete => true
    case _ => false
  }

  function EnvApply(c: Cluster, e: Event): (d: Cluster)
    requires EnvEnabled(c, e)
  {
    match e
    case Publish(t) => c.(inp := c.inp.(t := t))
    case SetBus(bus) => c.(inp := c.inp.(bus := bus))
    case SetCredential(ac) => c.(inp := c.inp.(ac := ac))
    case AddService(s, k) => c.(inp := c.inp.(services := c.inp.services[s := k]))
    case RemoveService(s) => c.(inp := c.inp.(services := c.inp.services - {s}))
    case Edit(rev, job, rest) => c.(inp := c.inp.(rev := rev, job := job, rest := rest))
    case Collect(s) => c.(subs := c.subs - {s})
    case FinishJob(run) => c.(finished := c.finished + {run})
    case RequestDelete => c.(deleting := true)
  }

  predicate ParentEnabled(c: Cluster, e: Event) {
    && !c.gone
    && match e
       case Begin => c.pass.Idle? && !c.deleting && c.inp.t != NoSecret
       case HoldT => At(c, Begun)
       case ReadBus => At(c, HeldT)
       case HoldN => At(c, BusRead) && c.pass.inp.bus != Pending
       case Render => At(c, Secured)
       case CheckHash => At(c, Rendered)
       case HoldAC => At(c, HashKept)
       case StartDbSync => At(c, HeldAC)
       case StartMigration => At(c, DbSynced)
       case RunDbSync =>
         At(c, HeldAC) && (c.pass.status.dbSync == Some(c.pass.inp.job) || DbSync(c.pass.inp.job) in c.finished)
       case RunMigration =>
         At(c, DbSynced) && (c.pass.status.migration == Some(c.pass.inp.job) || Migration(c.pass.inp.job) in c.finished)
       case WriteSub(s) => At(c, Writing) && s in c.pass.todo && s in c.pass.inp.services
       case Sweep => At(c, Writing) && c.pass.todo == {}
       case ReleaseT => At(c, Swept)
       case ReleaseN => At(c, ReleasedT)
       case ReleaseAC => At(c, ReleasedN)
       case Prune => At(c, ReleasedAC)
       case Complete => At(c, Pruned)
       case Stop => !c.pass.Idle?
       case Crash => c.pass.Active?
       case BeginDelete => c.pass.Idle? && c.deleting
       case Unhold(x) => c.pass == Removing(Unholding) && x in Named(c)
       case UnholdAC(x) => c.pass == Removing(Unholding) && x in NamedAC(c)
       case Clear => c.pass == Removing(Unholding)
       case ClearAC => c.pass == Removing(Cleared)
       case Delete => c.pass == Removing(ClearedBoth)
       case _ => false
  }

  function ParentApply(c: Cluster, e: Event): (d: Cluster)
    requires ParentEnabled(c, e)
  {
    match e
    case Begin => ParentBegin(c)
    case HoldT => ParentHoldT(c)
    case ReadBus => ParentReadBus(c)
    case HoldN => ParentHoldN(c)
    case Render => ParentRender(c)
    case CheckHash => ParentCheckHash(c)
    case HoldAC => ParentHoldAC(c)
    case StartDbSync => ParentStartDbSync(c)
    case StartMigration => ParentStartMigration(c)
    case RunDbSync => ParentDbSync(c)
    case RunMigration => ParentMigrate(c)
    case WriteSub(s) => ParentWriteSub(c, s)
    case Sweep => Next(c, Swept)
    case ReleaseT => ParentReleaseT(c)
    case ReleaseN => ParentReleaseN(c)
    case ReleaseAC => ParentReleaseAC(c)
    case Prune => ParentPrune(c)
    case Complete => ParentComplete(c)
    case Stop => if c.pass.Active? then Persist(c, c.pass.status) else c.(pass := Idle)
    case Crash => c.(pass := Idle)
    case BeginDelete => c.(pass := Removing(Unholding))
    case Unhold(x) => c.(held := c.held - {x})
    case UnholdAC(x) => c.(acHeld := c.acHeld - {x})
    case Clear => c.(held := {}, pass := Removing(Cleared))
    case ClearAC => c.(acHeld := {}, pass := Removing(ClearedBoth))
    case Delete => c.(gone := true, pass := Idle)
  }

  /** The steps of a sub-controller pass and of a rollout. A pass over a sub-CR that is not registered can only
      return. A pod only ever starts on the current template;
      the deployment is up only when every pod runs the template of this very pass. */
  predicate SubEnabled(c: Cluster, e: Event) {
    match e
    case SubBegin(s) => s in c.subs && c.subs[s].work.Resting?
    case SubLoad(s) => s in c.subs && c.subs[s].work.Started? && c.subs[s].registered
    case SubDeploy(s) => s in c.subs && c.subs[s].work.Loaded?
    case SubFinish(s, count, up) =>
      && s in c.subs && c.subs[s].work.Deployed?
      && (up ==> c.subs[s].pods <= {Template(c.subs[s].work.pair, c.subs[s].work.cfg)})
    case SubStop(s) => s in c.subs && !c.subs[s].work.Resting?
    case Roll(s, pods) =>
      && s in c.subs
      && forall p <- pods :: p in c.subs[s].pods || c.subs[s].template == Some(p)
    case _ => false
  }

  function SubStep(c: Cluster, e: Event): (sub: Sub)
    requires SubEnabled(c, e)
  {
    match e
    case SubBegin(s) => SubStart(c.subs[s])
    case SubLoad(s) => SubRead(c.subs[s], c.config)
    case SubDeploy(s) => SubApply(c.subs[s])
    case SubFinish(s, count, up) => SubReport(c.subs[s], count, up)
    case SubStop(s) => SubQuit(c.subs[s])
    case Roll(s, pods) => SubRoll(c.subs[s], pods)
  }

  predicate IsEnv(e: Event) {
    || e.Publish? || e.SetBus? || e.SetCredential? || e.AddService? || e.RemoveService? || e.Edit?
    || e.Collect? || e.FinishJob? || e.RequestDelete?
  }

  predicate IsSub(e: Event) {
    e.SubBegin? || e.SubLoad? || e.SubDeploy? || e.SubFinish? || e.SubStop? || e.Roll?
  }

  /** The steps of a deletion. */
  predicate IsRemoval(e: Event) {
    e.BeginDelete? || e.Unhold? || e.UnholdAC? || e.Clear? || e.ClearAC? || e.Delete?
  }

  predicate Enabled(c: Cluster, e: Event) {
    if IsEnv(e) then EnvEnabled(c, e) else if IsSub(e) then SubEnabled(c, e) else ParentEnabled(c, e)
  }

  function Apply(c: Cluster, e: Event): (d: Cluster)
    requires Enabled(c, e)
  {
    if IsEnv(e) then EnvApply(c, e)
    else if IsSub(e) then OnSub(c, e.s, SubStep(c, e))
    else ParentApply(c, e)
  }

  // ---------------------------------------------------------------- runs

  predicate Legal(c: Cluster, es: seq<Event>)
    decreases |es|
  {
    es == [] || (Enabled(c, es[0]) && Legal(Apply(c, es[0]), es[1..]))
  }

  function Run(c: Cluster, es: seq<Event>): (d: Cluster)
    requires Legal(c, es)
    decreases |es|
  {
    if es == [] then c else Run(Apply(c, es[0]), es[1..])
  }

  /** A namespace in which Cinder has just been created. */
  predicate Fresh(c: Cluster) {
    && !c.deleting && !c.gone && c.held == {} && c.acHeld == {} && c.subs == map[] && c.pass == Idle
    && c.started == {} && c.finished == {}
    && c.status == Status(NoSecret, None, NoSecret, None, None, None)
    && c.config == Config(NoSecret, NoSecret, 0)
    && (c.inp.t == NoSecret || c.inp.t.Messaging?)
    && (c.inp.bus.Published? ==> c.inp.bus.secret.Notifications?)
    && (c.inp.ac == NoSecret || c.inp.ac.Credential?)
    && (forall s <- c.inp.services :: c.inp.services[s] >= 1)
  }

  /** Two runs in a row are one run. */
  lemma {:induction false} RunAppend(c: Cluster, es: seq<Event>, fs: seq<Event>)
    requires Legal(c, es) && Legal(Run(c, es), fs)
    ensures Legal(c, es + fs) && Run(c, es + fs) == Run(Run(c, es), fs)
    decreases |es|
  {
    if es == [] {
      assert es + fs == fs;
    } else {
      RunAppend(Apply(c, es[0]), es[1..], fs);
      assert (es + fs)[1..] == es[1..] + fs;
    }
  }

  /** Every prefix of a run is a run. */
  lemma {:induction false} RunPrefix(c: Cluster, es: seq<Event>, fs: seq<Event>)
    requires Legal(c, es + fs)
    ensures Legal(c, es) && Legal(Run(c, es), fs)
    ensures Run(c, es + fs) == Run(Run(c, es), fs)
    decreases |es|
  {
    if es == [] {
      assert es + fs == fs;
    } else {
      assert (es + fs)[1..] == es[1..] + fs;
      RunPrefix(Apply(c, es[0]), es[1..], fs);
    }
  }
}
