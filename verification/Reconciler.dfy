/**
  One Reconcile from start to end, as the controller's methods perform it against the cluster
  store, what it amounts to among the steps of the protocol, and what the label-filtered cache
  changes about it.
*/
module Reconciler {
  import opened Text
  import opened Metadata
  import opened Objects
  import opened ClassData
  import opened Telegraf
  import opened Protocol
  import opened ProtocolSafety
  import FeatureGate

  datatype Answer = Done | RequeueAfter | Failed

  /** API errors other than "not found" and "already exists". */
  datatype Faults = Faults(podGet: bool, secretGet: bool, create: bool)

  const NO_FAULTS := Faults(false, false, false)

  type Secrets = map<Key, Secret>

  /** Building and creating, once no secret was found. */
  function Attempt(setup: Setup, secrets: Secrets, env: Environment, pod: Pod, fault: bool): (Secrets, Answer) {
    match ConfigFor(setup, env, pod)
    case Err(_) => (secrets, Failed)
    case Ok(config) =>
      if fault || SecretName(pod) == "" then (secrets, Failed)
      else if SecretKey(pod) in secrets then (secrets, Done)
      else (secrets[SecretKey(pod) := MakeSecret(setup, env, pod, config)], Done)
  }

  /** A Reconcile of the key with nothing else going on: the secrets it leaves and what it asks for. */
  function Alone(setup: Setup, pods: map<Key, Pod>, secrets: Secrets, env: Environment, key: Key, faults: Faults): (Secrets, Answer) {
    if faults.podGet then (secrets, Failed)
    else
      match ViewPod(setup, pods, key)
      case None => (secrets, Done)
      case Some(pod) =>
        if !Marked(pod) then (secrets, Done)
        else if faults.secretGet then (secrets, Failed)
        else
          match ViewSecret(setup, secrets, Key(key.namespace, SecretName(pod)))
          case Some(secret) => (secrets, if Owns(secret, pod.uid) then Done else RequeueAfter)
          case None => Attempt(setup, secrets, env, pod, faults.create)
  }

  // ------------------------------------------------------------ the methods

  /** The store behind the API server. */
  class Cluster {
    var pods: map<Key, Pod>
    var secrets: Secrets

    constructor (pods: map<Key, Pod>, secrets: Secrets)
      ensures this.pods == pods && this.secrets == secrets
    {
      this.pods, this.secrets := pods, secrets;
    }

    method GetPod(setup: Setup, key: Key) returns (pod: Option<Pod>)
      ensures pod == ViewPod(setup, pods, key)
    {
      pod := ViewPod(setup, pods, key);
    }

    method GetSecret(setup: Setup, key: Key) returns (secret: Option<Secret>)
      ensures secret == ViewSecret(setup, secrets, key)
    {
      secret := ViewSecret(setup, secrets, key);
    }

    /** Fails on a taken key, without changing it. */
    method CreateSecret(key: Key, secret: Secret) returns (taken: bool)
      modifies `secrets
      ensures taken == (key in old(secrets))
      ensures secrets == if taken then old(secrets) else old(secrets)[key := secret]
    {
      taken := key in secrets;
      if !taken {
        secrets := secrets[key := secret];
      }
    }
  }

  class PodReconciler {
    const cluster: Cluster
    const setup: Setup
    const classDataHandler: DirectoryHandler
    const aggregatorGate: FeatureGate.Gate
    const processorGate: FeatureGate.Gate

    constructor (cluster: Cluster, setup: Setup, classDataHandler: DirectoryHandler,
                 aggregatorGate: FeatureGate.Gate, processorGate: FeatureGate.Gate)
      ensures this.cluster == cluster && this.setup == setup && this.classDataHandler == classDataHandler
      ensures this.aggregatorGate == aggregatorGate && this.processorGate == processorGate
    {
      this.cluster, this.setup, this.classDataHandler := cluster, setup, classDataHandler;
      this.aggregatorGate, this.processorGate := aggregatorGate, processorGate;
    }

    function Env(): Environment
      reads this, classDataHandler, aggregatorGate, processorGate
    {
      Environment(classDataHandler.data, Gates(aggregatorGate.enabled, processorGate.enabled))
    }

    method Reconcile(req: Key, faults: Faults) returns (answer: Answer)
      modifies cluster`secrets
      ensures (cluster.secrets, answer) == Alone(setup, cluster.pods, old(cluster.secrets), Env(), req, faults)
      ensures (req in cluster.pods ==> PodKey(cluster.pods[req]) == req) && cluster.secrets != old(cluster.secrets) ==>
        req in cluster.pods &&
        CreatedFor(setup, cluster.pods[req], Environment(classDataHandler.data, Gates(aggregatorGate.enabled, processorGate.enabled)),
                   old(cluster.secrets), cluster.secrets)
    {
      hide ConfigFor, MakeSecret, Attempt, PodVisible, SecretVisible, CreatedFor;
      if req in cluster.pods ==> PodKey(cluster.pods[req]) == req {
        AloneCreates(setup, cluster.pods, cluster.secrets, Env(), req, faults);
      }
      if faults.podGet {
        return Failed;
      }
      var obj := cluster.GetPod(setup, req);
      if obj.None? {
        return Done;
      }
      var attempt := ShouldAttemptReconciliation(obj.value);
      if !attempt {
        return Done;
      }
      var name := Key(req.namespace, SecretName(obj.value));
      if faults.secretGet {
        return Failed;
      }
      var secret := cluster.GetSecret(setup, name);
      if secret.Some? {
        var owners := secret.value.owners;
        for i := 0 to |owners|
          invariant forall o :: o in owners[..i] ==> o.uid != obj.value.uid
        {
          if owners[i].uid == obj.value.uid {
            assert owners[i] in owners;
            return Done;
          }
        }
        assert owners[..|owners|] == owners;
        return RequeueAfter;
      }
      answer := ReconcileMissing(obj.value, faults.create);
    }

    method ReconcileMissing(obj: Pod, fault: bool) returns (answer: Answer)
      modifies cluster`secrets
      ensures (cluster.secrets, answer) == Attempt(setup, old(cluster.secrets), Env(), obj, fault)
    {
      hide Build, Overridden, Warnings;
      var telegrafConfig := new AnnotationValues(classDataHandler, setup.settings);
      var warnings := telegrafConfig.ApplyAnnotationOverrides(setup.lib, obj.annotations);
      assert telegrafConfig.View() == Resolved(setup.lib, setup.settings, obj.annotations);
      var config := telegrafConfig.BuildConfigData(setup.lib, aggregatorGate, processorGate);
      assert config == ConfigFor(setup, Env(), obj);
      if config.Err? {
        return Failed;
      }
      ChosenClass(setup.lib, NewValues(setup.settings), obj.annotations);
      assert telegrafConfig.class_ == Setting(obj.annotations, CLASS, setup.settings.defaultClass);
      var secret := Secret(
        [],
        map[SECRET_CLASS_NAME := telegrafConfig.class_,
            SECRET_POD := obj.name,
            SECRET_MANAGED_BY := CONTROLLER_NAME,
            SECRET_CREATED_BY := CONTROLLER_NAME],
        map[CONFIG_KEY := config.value],
        Operator(obj, Env()));
      secret := secret.(owners := secret.owners + [Owner(obj.name, obj.uid)]);
      assert secret.owners == [Owner(obj.name, obj.uid)];
      if fault || SecretName(obj) == "" {
        return Failed;
      }
      var taken := cluster.CreateSecret(SecretKey(obj), secret);
      return Done;
    }

    method ShouldAttemptReconciliation(pod: Pod) returns (r: bool)
      ensures r <==> SIDECAR_INJECTED in pod.labels
    {
      var rest := pod.labels.Keys;
      while rest != {}
        invariant rest <= pod.labels.Keys
        invariant SIDECAR_INJECTED in pod.labels ==> SIDECAR_INJECTED in rest
      {
        var key :| key in rest;
        if key == SIDECAR_INJECTED {
          return true;
        }
        rest := rest - {key};
      }
      return false;
    }
  }

  lemma ChosenClass(lib: Library, v: Values, a: Annotations)
    ensures Overridden(lib, v, a).class_ == Setting(a, CLASS, v.class_)
  {
    hide Setting, OverriddenPorts, OverriddenNamepass, OverriddenInternal, OverriddenInterval, OverriddenVersion, WithPrefix;
  }

  // ------------------------------------------------- what a Reconcile amounts to

  /** One secret is new, under a key that was free, true to the pod and made in this environment; nothing else has changed. */
  ghost predicate CreatedFor(setup: Setup, p: Pod, env: Environment, before: Secrets, after: Secrets) {
    exists name, secret :: name != "" && Key(p.namespace, name) !in before && after == before[Key(p.namespace, name) := secret] &&
      secret.origin == Operator(p, env) && TrueTo(setup, Key(p.namespace, name), secret)
  }

  lemma AloneCreates(setup: Setup, pods: map<Key, Pod>, secrets: Secrets, env: Environment, key: Key, faults: Faults)
    requires key in pods ==> PodKey(pods[key]) == key
    ensures var after := Alone(setup, pods, secrets, env, key, faults).0;
            after != secrets ==> key in pods && CreatedFor(setup, pods[key], env, secrets, after)
  {
    hide ConfigFor, TrueTo, PodVisible, SecretVisible;
    var after := Alone(setup, pods, secrets, env, key, faults).0;
    if after != secrets {
      var p := pods[key];
      MadeIsTrue(setup, env, p);
      var secret := MakeSecret(setup, env, p, ConfigFor(setup, env, p).value);
      assert after == secrets[Key(p.namespace, SecretName(p)) := secret];
    }
  }

  /** The pod the controller gets to see under the key, if it has the label it looks for. */
  predicate SeenPod(setup: Setup, pods: map<Key, Pod>, key: Key) {
    key in pods && SIDECAR_INJECTED in pods[key].labels &&
    (setup.cached ==> pods[key].labels[SIDECAR_INJECTED] == "true")
  }

  predicate SeenSecret(setup: Setup, secrets: Secrets, key: Key) {
    key in secrets &&
    (setup.cached ==> SECRET_MANAGED_BY in secrets[key].labels && secrets[key].labels[SECRET_MANAGED_BY] == CONTROLLER_NAME)
  }

  /** The secret the pod's label names, in the pod's namespace. */
  function NamedSecret(p: Pod, key: Key): Key {
    Key(key.namespace, if SIDECAR_SECRET_NAME in p.labels then p.labels[SIDECAR_SECRET_NAME] else "")
  }

  /**
    When a Reconcile creates, when it asks to come back, and when it fails, for every store, every
    pod and every fault of the API, with nothing left to the controller's own functions.
  */
  lemma AloneMeaning(setup: Setup, pods: map<Key, Pod>, secrets: Secrets, env: Environment, key: Key, faults: Faults)
    requires key in pods ==> PodKey(pods[key]) == key
    ensures var (after, answer) := Alone(setup, pods, secrets, env, key, faults);
            if faults.podGet then after == secrets && answer == Failed
            else if !SeenPod(setup, pods, key) then after == secrets && answer == Done
            else if faults.secretGet then after == secrets && answer == Failed
            else
              var p := pods[key];
              var name := NamedSecret(p, key);
              if SeenSecret(setup, secrets, name) then
                after == secrets &&
                if exists o :: o in secrets[name].owners && o.uid == p.uid then answer == Done else answer == RequeueAfter
              else if name.name == "" || faults.create || !(exists text :: Renders(setup, env, p, text)) then
                after == secrets && answer == Failed
              else answer == Done && (name in secrets <==> after == secrets)
  {
    hide ConfigFor, Renders;
    if key in pods {
      var p := pods[key];
      ConfigForRenders(setup, env, p);
      assert ConfigFor(setup, env, p).Ok? ==> Renders(setup, env, p, ConfigFor(setup, env, p).value);
      assert NamedSecret(p, key) == SecretKey(p);
      hide MakeSecret;
    }
  }

  // -------------------------------------------------- as steps of the protocol

  lemma Prepend(setup: Setup, s: State, step: Step, rest: seq<Step>, last: State) returns (steps: seq<Step>)
    requires Enabled(setup, s, step) && Runs(setup, Next(setup, s, step), rest, last)
    ensures steps == [step] + rest && Runs(setup, s, steps, last)
  {
    steps := [step] + rest;
    assert steps[1..] == rest;
  }

  /** What is left of the state when a worker started on the key and ended with this outcome. */
  predicate Outcome(s: State, t: State, key: Key, outcome: (Secrets, Answer)) {
    t == s.(secrets := outcome.0, queue := if outcome.1 == Done then s.queue - {key} else s.queue)
  }

  /** From "no secret found" on: build, and create unless building failed or the API fails. */
  lemma AttemptRuns(setup: Setup, s: State, m: State, w: nat, p: Pod, fault: bool) returns (steps: seq<Step>, last: State)
    requires w !in s.jobs && PodKey(p) in s.queue
    requires m == s.(queue := s.queue - {PodKey(p)}, jobs := s.jobs[w := Job(PodKey(p), Missing(p))])
    ensures Runs(setup, m, steps, last) && Outcome(s, last, PodKey(p), Attempt(setup, s.secrets, s.env, p, fault))
  {
    hide ConfigFor, MakeSecret;
    var key := PodKey(p);
    var b := Next(setup, m, BuildConfig(w));
    assert m.jobs - {w} == s.jobs;
    assert s.queue - {key} + {key} == s.queue;
    if ConfigFor(setup, s.env, p).Err? {
      last := b;
      steps := Prepend(setup, m, BuildConfig(w), [], last);
    } else {
      assert b.jobs[w].key == key && b.jobs - {w} == s.jobs;
      var end := if fault then ApiFailure(w) else CreateSecret(w);
      last := Next(setup, b, end);
      steps := Prepend(setup, b, end, [], last);
      steps := Prepend(setup, m, BuildConfig(w), steps, last);
    }
  }

  /**
    The sequential Reconcile is one run of the protocol, with and without faults of the API: an
    idle worker that takes the key from the queue, reads fresh answers and is not interrupted ends
    with the same secrets, and the key is back in the queue exactly when the answer asks for it.
    When already the pod cannot be read, nothing has happened.
  */
  lemma AloneIsARun(setup: Setup, s: State, w: nat, key: Key, faults: Faults) returns (steps: seq<Step>, last: State)
    requires Inv(setup, s) && w < MAX_CONCURRENT_RECONCILES && w !in s.jobs && key in s.queue && !Busy(s, key)
    ensures Runs(setup, s, steps, last)
    ensures Outcome(s, last, key, Alone(setup, s.pods, s.secrets, s.env, key, faults))
  {
    hide ConfigFor, MakeSecret, Attempt, JobsInv, SecretsInv, Live, Collectable;
    var podSeen := ViewPod(setup, s.pods, key);
    var fetch := FetchPod(w, key, podSeen);
    if faults.podGet {
      steps, last := [], s;
    } else if podSeen.None? || !Marked(podSeen.value) {
      last := Next(setup, s, fetch);
      steps := Prepend(setup, s, fetch, [], last);
    } else {
      steps, last := LookRuns(setup, s, w, podSeen.value, faults);
      steps := Prepend(setup, s, fetch, steps, last);
    }
  }

  /** From the pod read on. */
  lemma LookRuns(setup: Setup, s: State, w: nat, p: Pod, faults: Faults) returns (steps: seq<Step>, last: State)
    requires w !in s.jobs && PodKey(p) in s.queue && Marked(p) && ViewPod(setup, s.pods, PodKey(p)) == Some(p) && !faults.podGet
    ensures var f := s.(queue := s.queue - {PodKey(p)}, jobs := s.jobs[w := Job(PodKey(p), Fetched(p))]);
            Runs(setup, f, steps, last) && Outcome(s, last, PodKey(p), Alone(setup, s.pods, s.secrets, s.env, PodKey(p), faults))
  {
    hide ConfigFor, MakeSecret, Attempt, Live, Collectable;
    var key := PodKey(p);
    var f := s.(queue := s.queue - {key}, jobs := s.jobs[w := Job(key, Fetched(p))]);
    assert f.jobs - {w} == s.jobs;
    assert s.queue - {key} + {key} == s.queue;
    if faults.secretGet {
      last := Next(setup, f, ApiFailure(w));
      steps := Prepend(setup, f, ApiFailure(w), [], last);
    } else {
      var look := FetchSecret(w, ViewSecret(setup, s.secrets, SecretKey(p)));
      var m := Next(setup, f, look);
      if look.secretSeen.Some? {
        last := m;
        steps := Prepend(setup, f, look, [], last);
      } else {
        assert f.jobs[w := Job(key, Missing(p))] == s.jobs[w := Job(key, Missing(p))];
        steps, last := AttemptRuns(setup, s, m, w, p, faults.create);
        steps := Prepend(setup, f, look, steps, last);
      }
    }
  }

  // ------------------------------------------------------ the filtered cache

  /** A marked pod that the cache hides because its mark is not "true". */
  predicate HiddenPod(pods: map<Key, Pod>, key: Key) {
    key in pods && Marked(pods[key]) && pods[key].labels[SIDECAR_INJECTED] != "true"
  }

  /** Reading directly, the pod would get a secret now. */
  predicate WouldCreate(setup: Setup, pods: map<Key, Pod>, secrets: Secrets, env: Environment, key: Key)
    requires key in pods
  {
    Key(key.namespace, SecretName(pods[key])) !in secrets && SecretName(pods[key]) != "" && ConfigFor(setup, env, pods[key]).Ok?
  }

  /**
    The label-filtered cache leaves the same secrets as direct reads, for every store and every
    foreign secret in it, except exactly for a marked pod whose mark is not "true" and which
    would get a secret.
  */
  lemma CacheKeepsStore(setup: Setup, pods: map<Key, Pod>, secrets: Secrets, env: Environment, key: Key)
    requires key in pods ==> PodKey(pods[key]) == key
    ensures Alone(setup.(cached := true), pods, secrets, env, key, NO_FAULTS).0 ==
            Alone(setup.(cached := false), pods, secrets, env, key, NO_FAULTS).0
            <==> !(HiddenPod(pods, key) && WouldCreate(setup, pods, secrets, env, key))
  {
    hide Synthesize;
    var cached, direct := setup.(cached := true), setup.(cached := false);
    if key in pods {
      var p := pods[key];
      assert ConfigFor(cached, env, p) == ConfigFor(direct, env, p) == ConfigFor(setup, env, p);
      assert SecretKey(p) == Key(key.namespace, SecretName(p));
    }
  }

  /** So with every mark "true" the cache never shows in the store. */
  lemma CacheIsInvisible(setup: Setup, pods: map<Key, Pod>, secrets: Secrets, env: Environment, key: Key)
    requires forall k :: k in pods ==> PodKey(pods[k]) == k
    requires forall k :: k in pods && Marked(pods[k]) ==> pods[k].labels[SIDECAR_INJECTED] == "true"
    ensures Alone(setup.(cached := true), pods, secrets, env, key, NO_FAULTS).0 ==
            Alone(setup.(cached := false), pods, secrets, env, key, NO_FAULTS).0
  {
    CacheKeepsStore(setup, pods, secrets, env, key);
  }

  /** Building and naming go well, so that a create is attempted. */
  predicate CanCreate(setup: Setup, env: Environment, p: Pod) {
    ConfigFor(setup, env, p).Ok? && SecretName(p) != ""
  }

  /**
    When the two views give one answer. A marked pod that is hidden gives success through the
    cache, so directly the pod has to own its secret or be able to create it. A marked pod that
    is seen gives different answers only when its name is held by a secret without the managed-by
    label, which the cache hides, unless the pod owns that secret and could create its own.
  */
  predicate SameAnswer(setup: Setup, pods: map<Key, Pod>, secrets: Secrets, env: Environment, key: Key) {
    key in pods && Marked(pods[key]) ==>
      var p := pods[key];
      if HiddenPod(pods, key) then
        if SecretKey(p) in secrets then Owns(secrets[SecretKey(p)], p.uid) else CanCreate(setup, env, p)
      else
        SecretKey(p) !in secrets || HasLabel(secrets[SecretKey(p)].labels, SECRET_MANAGED_BY, CONTROLLER_NAME) ||
        (Owns(secrets[SecretKey(p)], p.uid) && CanCreate(setup, env, p))
  }

  /** The answers through the cache and with direct reads agree exactly then, for every store and every key. */
  lemma CacheChangesAnswer(setup: Setup, pods: map<Key, Pod>, secrets: Secrets, env: Environment, key: Key)
    requires key in pods ==> PodKey(pods[key]) == key
    ensures Alone(setup.(cached := true), pods, secrets, env, key, NO_FAULTS).1 ==
            Alone(setup.(cached := false), pods, secrets, env, key, NO_FAULTS).1
            <==> SameAnswer(setup, pods, secrets, env, key)
  {
    hide Synthesize, Owns;
    if key in pods {
      var cached, direct := setup.(cached := true), setup.(cached := false);
      var p := pods[key];
      assert ConfigFor(cached, env, p) == ConfigFor(direct, env, p) == ConfigFor(setup, env, p);
      assert SecretKey(p) == Key(key.namespace, SecretName(p));
    }
  }
}
