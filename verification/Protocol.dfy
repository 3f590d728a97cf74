/**
  The controller as a step system: up to four workers take pod keys from a queue and run
  get pod, get secret, build, create, each an atomic step, while pods come and go, owners
  are garbage collected, third parties write secrets, and the class data and gates change.
  Reads may be served by a cache that lags arbitrarily behind.
*/
module Protocol {
  import opened Text
  import opened Metadata
  import opened Objects
  import opened ClassData
  import opened Telegraf

  const MAX_CONCURRENT_RECONCILES := 4

  const CONFIG_KEY := "telegraf.conf"

  datatype Owner = Owner(name: string, uid: Uid)

  /** What may change while the operator runs. */
  datatype Environment = Environment(classes: Classes, gates: Gates)

  /** What is fixed when it starts; `cached` says that reads go through the label-filtered cache. */
  datatype Setup = Setup(lib: Library, settings: Telegraf.Settings, cached: bool)

  /** Who made a secret, recorded for the statements below: a third party, or the operator for a pod in an environment. */
  datatype Origin = Foreign | Operator(pod: Pod, env: Environment)

  datatype Secret = Secret(owners: seq<Owner>, labels: map<string, string>, data: map<string, string>, origin: Origin)

  // -------------------------------------------------------------- the views

  predicate HasLabel(labels: map<string, string>, key: string, value: string) {
    key in labels && labels[key] == value
  }

  predicate PodVisible(setup: Setup, p: Pod) {
    setup.cached ==> HasLabel(p.labels, SIDECAR_INJECTED, "true")
  }

  predicate SecretVisible(setup: Setup, s: Secret) {
    setup.cached ==> HasLabel(s.labels, SECRET_MANAGED_BY, CONTROLLER_NAME)
  }

  function ViewPod(setup: Setup, pods: map<Key, Pod>, key: Key): Option<Pod> {
    if key in pods && PodVisible(setup, pods[key]) then Some(pods[key]) else None
  }

  function ViewSecret(setup: Setup, secrets: map<Key, Secret>, key: Key): Option<Secret> {
    if key in secrets && SecretVisible(setup, secrets[key]) then Some(secrets[key]) else None
  }

  // -------------------------------------------------------- what is created

  function SecretName(p: Pod): string {
    if SIDECAR_SECRET_NAME in p.labels then p.labels[SIDECAR_SECRET_NAME] else ""
  }

  function SecretKey(p: Pod): Key {
    Key(p.namespace, SecretName(p))
  }

  function ConfigFor(setup: Setup, env: Environment, p: Pod): Result<string, BuildError> {
    Synthesize(setup.lib, setup.settings, env.classes, env.gates, p.annotations)
  }

  function MakeSecret(setup: Setup, env: Environment, p: Pod, config: string): Secret {
    Secret(
      [Owner(p.name, p.uid)],
      map[SECRET_CLASS_NAME := Setting(p.annotations, CLASS, setup.settings.defaultClass),
          SECRET_POD := p.name,
          SECRET_MANAGED_BY := CONTROLLER_NAME,
          SECRET_CREATED_BY := CONTROLLER_NAME],
      map[CONFIG_KEY := config],
      Operator(p, env))
  }

  predicate Owns(s: Secret, uid: Uid) {
    exists o :: o in s.owners && o.uid == uid
  }

  predicate Marked(p: Pod) {
    SIDECAR_INJECTED in p.labels
  }

  // --------------------------------------------------------------- the steps

  /** Where a worker stands: it has the pod, it found no secret, it has built one. */
  datatype Phase = Fetched(pod: Pod) | Missing(pod: Pod) | Built(pod: Pod, secret: Secret)

  datatype Job = Job(key: Key, phase: Phase)

  /** `versions` records every pod object that ever existed. */
  datatype State = State(
    pods: map<Key, Pod>, secrets: map<Key, Secret>, versions: set<Pod>, env: Environment,
    queue: set<Key>, jobs: map<nat, Job>)

  datatype Step =
    | FetchPod(w: nat, key: Key, podSeen: Option<Pod>)
    | FetchSecret(w: nat, secretSeen: Option<Secret>)
    | BuildConfig(w: nat)
    | CreateSecret(w: nat)
    | ApiFailure(w: nat)
    | Wake(key: Key)
    | CreatePod(pod: Pod)
    | UpdatePod(pod: Pod)
    | DeletePod(key: Key)
    | Collect(key: Key)
    | CreateForeign(key: Key, secret: Secret)
    | DeleteSecret(key: Key)
    | ChangeEnvironment(env: Environment)

  predicate Live(s: State, namespace: string, uid: Uid) {
    exists k :: k in s.pods && k.namespace == namespace && s.pods[k].uid == uid
  }

  /** The garbage collector may remove a secret that has owners, all of them gone. */
  predicate Collectable(s: State, key: Key) {
    key in s.secrets && s.secrets[key].owners != [] &&
    forall o :: o in s.secrets[key].owners ==> !Live(s, key.namespace, o.uid)
  }

  predicate Busy(s: State, key: Key) {
    exists w :: w in s.jobs && s.jobs[w].key == key
  }

  /**
    A read of a pod answers with any version that ever existed under the key, or with nothing;
    a read of a secret answers with anything at all. The queue hands a key to one worker at a time.
  */
  predicate Enabled(setup: Setup, s: State, step: Step) {
    match step
    case FetchPod(w, key, seen) =>
      w < MAX_CONCURRENT_RECONCILES && w !in s.jobs && key in s.queue && !Busy(s, key) &&
      (seen.Some? ==> seen.value in s.versions && PodKey(seen.value) == key && PodVisible(setup, seen.value))
    case FetchSecret(w, seen) => w in s.jobs && s.jobs[w].phase.Fetched?
    case BuildConfig(w) => w in s.jobs && s.jobs[w].phase.Missing?
    case CreateSecret(w) => w in s.jobs && s.jobs[w].phase.Built?
    case ApiFailure(w) => w in s.jobs && !s.jobs[w].phase.Missing?
    case Wake(key) => true
    case CreatePod(p) => PodKey(p) !in s.pods && forall v :: v in s.versions ==> v.uid != p.uid
    case UpdatePod(p) => PodKey(p) in s.pods && s.pods[PodKey(p)].uid == p.uid
    case DeletePod(key) => key in s.pods
    case Collect(key) => Collectable(s, key)
    case CreateForeign(key, secret) => key !in s.secrets && secret.origin.Foreign?
    case DeleteSecret(key) => key in s.secrets
    case ChangeEnvironment(env) => true
  }

  /** The worker is done with its key, which goes back into the queue on a requeue or an error. */
  function Finish(s: State, w: nat, again: bool): State
    requires w in s.jobs
  {
    s.(jobs := s.jobs - {w}, queue := if again then s.queue + {s.jobs[w].key} else s.queue)
  }

  function Advance(s: State, w: nat, phase: Phase): State
    requires w in s.jobs
  {
    s.(jobs := s.jobs[w := s.jobs[w].(phase := phase)])
  }

  function Next(setup: Setup, s: State, step: Step): State
    requires Enabled(setup, s, step)
  {
    match step
    case FetchPod(w, key, seen) =>
      var t := s.(queue := s.queue - {key});
      if seen.Some? && Marked(seen.value) then t.(jobs := t.jobs[w := Job(key, Fetched(seen.value))]) else t
    case FetchSecret(w, seen) =>
      var pod := s.jobs[w].phase.pod;
      match seen {
        case None => Advance(s, w, Missing(pod))
        case Some(secret) => Finish(s, w, !Owns(secret, pod.uid))
      }
    case BuildConfig(w) =>
      var pod := s.jobs[w].phase.pod;
      match ConfigFor(setup, s.env, pod) {
        case Ok(config) => Advance(s, w, Built(pod, MakeSecret(setup, s.env, pod, config)))
        case Err(_) => Finish(s, w, true)
      }
    case CreateSecret(w) =>
      var Built(pod, secret) := s.jobs[w].phase;
      var key := SecretKey(pod);
      if key.name == "" then Finish(s, w, true)
      else if key in s.secrets then Finish(s, w, false)
      else Finish(s, w, false).(secrets := s.secrets[key := secret])
    case ApiFailure(w) => Finish(s, w, true)
    case Wake(key) => s.(queue := s.queue + {key})
    case CreatePod(p) => s.(pods := s.pods[PodKey(p) := p], versions := s.versions + {p})
    case UpdatePod(p) => s.(pods := s.pods[PodKey(p) := p], versions := s.versions + {p})
    case DeletePod(key) => s.(pods := s.pods - {key})
    case Collect(key) => s.(secrets := s.secrets - {key})
    case CreateForeign(key, secret) => s.(secrets := s.secrets[key := secret])
    case DeleteSecret(key) => s.(secrets := s.secrets - {key})
    case ChangeEnvironment(env) => s.(env := env)
  }

  /** The steps of the operator itself, by worker. */
  predicate WorkerStep(step: Step) {
    step.FetchPod? || step.FetchSecret? || step.BuildConfig? || step.CreateSecret? || step.ApiFailure?
  }

  /** The operator starts on a cluster with any pods and any secrets of others. */
  ghost predicate Init(s: State) {
    s.jobs == map[] && s.versions == s.pods.Values &&
    (forall k :: k in s.pods ==> PodKey(s.pods[k]) == k) &&
    (forall j, k :: j in s.pods && k in s.pods && s.pods[j].uid == s.pods[k].uid ==> j == k) &&
    (forall k :: k in s.secrets ==> s.secrets[k].origin.Foreign?)
  }

  ghost predicate Runs(setup: Setup, s: State, steps: seq<Step>, last: State)
    decreases |steps|
  {
    if steps == [] then last == s
    else Enabled(setup, s, steps[0]) && Runs(setup, Next(setup, s, steps[0]), steps[1..], last)
  }

  // --------------------------------------------------------------- invariant

  /**
    A secret is faithful to a pod that existed: it has exactly that pod as owner, lies in its
    namespace under its secret-name label, and holds the configuration built from that same
    pod's annotations.
  */
  ghost predicate Faithful(setup: Setup, versions: set<Pod>, key: Key, secret: Secret) {
    secret.origin.Operator? &&
    var p, env := secret.origin.pod, secret.origin.env;
    p in versions && Marked(p) && key == SecretKey(p) && key.name != "" &&
    ConfigFor(setup, env, p).Ok? && secret == MakeSecret(setup, env, p, ConfigFor(setup, env, p).value)
  }

  ghost predicate JobInv(setup: Setup, versions: set<Pod>, job: Job) {
    job.phase.pod in versions && PodKey(job.phase.pod) == job.key && Marked(job.phase.pod) &&
    (job.phase.Built? ==>
       var p, secret := job.phase.pod, job.phase.secret;
       secret.origin.Operator? && secret.origin.pod == p && ConfigFor(setup, secret.origin.env, p).Ok? &&
       secret == MakeSecret(setup, secret.origin.env, p, ConfigFor(setup, secret.origin.env, p).value))
  }

  ghost predicate PodsInv(s: State) {
    (forall k :: k in s.pods ==> PodKey(s.pods[k]) == k && s.pods[k] in s.versions) &&
    (forall p, q :: p in s.versions && q in s.versions && p.uid == q.uid ==> PodKey(p) == PodKey(q))
  }

  ghost predicate JobsInv(setup: Setup, s: State) {
    (forall w :: w in s.jobs ==> w < MAX_CONCURRENT_RECONCILES && JobInv(setup, s.versions, s.jobs[w])) &&
    (forall w, x :: w in s.jobs && x in s.jobs && s.jobs[w].key == s.jobs[x].key ==> w == x)
  }

  ghost predicate SecretsInv(setup: Setup, s: State) {
    forall k :: k in s.secrets && s.secrets[k].origin.Operator? ==> Faithful(setup, s.versions, k, s.secrets[k])
  }

  ghost predicate Inv(setup: Setup, s: State) {
    PodsInv(s) && JobsInv(setup, s) && SecretsInv(setup, s)
  }

  lemma InitInv(setup: Setup, s: State)
    requires Init(s)
    ensures Inv(setup, s)
  {
    forall p, q | p in s.versions && q in s.versions && p.uid == q.uid ensures PodKey(p) == PodKey(q) {
      var j :| j in s.pods && s.pods[j] == p;
      var k :| k in s.pods && s.pods[k] == q;
    }
  }

  lemma FinishKeepsJobs(setup: Setup, s: State, w: nat, again: bool)
    requires JobsInv(setup, s) && w in s.jobs
    ensures JobsInv(setup, Finish(s, w, again))
  {
    hide JobInv;
  }

  lemma AdvanceKeepsJobs(setup: Setup, s: State, w: nat, phase: Phase)
    requires JobsInv(setup, s) && w in s.jobs && JobInv(setup, s.versions, s.jobs[w].(phase := phase))
    ensures JobsInv(setup, Advance(s, w, phase))
  {
    hide JobInv;
  }

  lemma StartKeepsJobs(setup: Setup, s: State, w: nat, job: Job)
    requires JobsInv(setup, s) && w < MAX_CONCURRENT_RECONCILES && !Busy(s, job.key) && JobInv(setup, s.versions, job)
    ensures JobsInv(setup, s.(queue := s.queue - {job.key}, jobs := s.jobs[w := job]))
  {
    hide JobInv;
    assert forall x :: x in s.jobs ==> s.jobs[x].key != job.key;
  }

  lemma MoreVersionsKeepJobs(setup: Setup, s: State, t: State)
    requires JobsInv(setup, s) && s.jobs == t.jobs && s.versions <= t.versions
    ensures JobsInv(setup, t)
  {
    hide ConfigFor, MakeSecret, Marked;
    assert forall w :: w in s.jobs ==> JobInv(setup, s.versions, s.jobs[w]);
  }

  lemma StepKeepsJobs(setup: Setup, s: State, step: Step)
    requires Inv(setup, s) && Enabled(setup, s, step)
    ensures JobsInv(setup, Next(setup, s, step))
  {
    hide JobsInv, ConfigFor, Owns, Collectable, PodVisible, Live;
    var t := Next(setup, s, step);
    assert step.FetchSecret? || step.BuildConfig? || step.CreateSecret? ==> JobInv(setup, s.versions, s.jobs[step.w]) by {
      JobsHold(setup, s);
    }
    match step {
      case FetchPod(w, key, seen) =>
        if seen.Some? && Marked(seen.value) {
          StartKeepsJobs(setup, s, w, Job(key, Fetched(seen.value)));
        } else {
          MoreVersionsKeepJobs(setup, s, t);
        }
      case FetchSecret(w, seen) =>
        var pod := s.jobs[w].phase.pod;
        if seen.None? {
          AdvanceKeepsJobs(setup, s, w, Missing(pod));
        } else {
          FinishKeepsJobs(setup, s, w, !Owns(seen.value, pod.uid));
        }
      case BuildConfig(w) =>
        var pod := s.jobs[w].phase.pod;
        var config := ConfigFor(setup, s.env, pod);
        if config.Ok? {
          AdvanceKeepsJobs(setup, s, w, Built(pod, MakeSecret(setup, s.env, pod, config.value)));
        } else {
          FinishKeepsJobs(setup, s, w, true);
        }
      case CreateSecret(w) =>
        FinishKeepsJobs(setup, s, w, true);
        FinishKeepsJobs(setup, s, w, false);
        MoreVersionsKeepJobs(setup, Finish(s, w, false), t);
      case ApiFailure(w) => FinishKeepsJobs(setup, s, w, true);
      case _ => MoreVersionsKeepJobs(setup, s, t);
    }
  }

  lemma JobsHold(setup: Setup, s: State)
    requires JobsInv(setup, s)
    ensures forall w :: w in s.jobs ==> JobInv(setup, s.versions, s.jobs[w])
  {
  }

  lemma StoreKeepsPods(s: State, p: Pod)
    requires PodsInv(s) && forall v :: v in s.versions && v.uid == p.uid ==> PodKey(v) == PodKey(p)
    ensures PodsInv(s.(pods := s.pods[PodKey(p) := p], versions := s.versions + {p}))
  {
  }

  lemma FewerKeepPods(s: State, t: State)
    requires PodsInv(s) && t.versions == s.versions && t.pods.Keys <= s.pods.Keys
    requires forall k :: k in t.pods ==> t.pods[k] == s.pods[k]
    ensures PodsInv(t)
  {
  }

  lemma StepKeepsPods(setup: Setup, s: State, step: Step)
    requires Inv(setup, s) && Enabled(setup, s, step)
    ensures PodsInv(Next(setup, s, step)) && s.versions <= Next(setup, s, step).versions
  {
    hide ConfigFor, MakeSecret, Owns, Collectable, Marked, PodVisible, Live, JobsInv, SecretsInv, Busy, SecretName;
    match step {
      case CreatePod(p) => StoreKeepsPods(s, p);
      case UpdatePod(p) =>
        assert s.pods[PodKey(p)] in s.versions;
        StoreKeepsPods(s, p);
      case _ =>
        hide PodsInv;
        FewerKeepPods(s, Next(setup, s, step));
    }
  }

  lemma StepKeepsSecrets(setup: Setup, s: State, step: Step)
    requires Inv(setup, s) && Enabled(setup, s, step)
    ensures SecretsInv(setup, Next(setup, s, step))
  {
    hide ConfigFor, MakeSecret, Owns, Collectable, PodVisible, Live;
    if step.CreateSecret? {
      assert JobInv(setup, s.versions, s.jobs[step.w]);
    }
    assert forall k :: k in s.secrets && s.secrets[k].origin.Operator? ==> Faithful(setup, s.versions, k, s.secrets[k]);
  }

  lemma StepKeepsInv(setup: Setup, s: State, step: Step)
    requires Inv(setup, s) && Enabled(setup, s, step)
    ensures Inv(setup, Next(setup, s, step))
  {
    hide Next, Enabled;
    StepKeepsJobs(setup, s, step);
    StepKeepsPods(setup, s, step);
    StepKeepsSecrets(setup, s, step);
  }

  lemma {:induction false} RunKeepsInv(setup: Setup, s: State, steps: seq<Step>, last: State)
    requires Inv(setup, s) && Runs(setup, s, steps, last)
    ensures Inv(setup, last)
    decreases |steps|
  {
    hide Next, Enabled, Inv;
    if steps != [] {
      StepKeepsInv(setup, s, steps[0]);
      RunKeepsInv(setup, Next(setup, s, steps[0]), steps[1..], last);
    }
  }
}
