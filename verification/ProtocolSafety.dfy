/** What holds over every interleaving of the step system: faithful secrets, inserts only, no leak. */
module ProtocolSafety {
  import opened Text
  import opened Metadata
  import opened Objects
  import opened Telegraf
  import opened Protocol
  import Injector
  import Sidecar

  // ----------------------------------------------------------- what it writes

  /** The operator never changes or removes anything: at most it inserts a faithful secret at an absent key. */
  lemma OperatorOnlyInserts(setup: Setup, s: State, step: Step)
    requires Inv(setup, s) && Enabled(setup, s, step) && WorkerStep(step)
    ensures var t := Next(setup, s, step);
            t.pods == s.pods && t.env == s.env && t.versions == s.versions &&
            (t.secrets == s.secrets ||
             (step.CreateSecret? && s.jobs[step.w].phase.Built? &&
              var key, secret := SecretKey(s.jobs[step.w].phase.pod), s.jobs[step.w].phase.secret;
              key !in s.secrets && t.secrets == s.secrets[key := secret] && Faithful(setup, s.versions, key, secret)))
  {
    hide ConfigFor, MakeSecret, Owns, PodVisible, Live, Collectable, PodsInv, SecretsInv, SecretName, Busy;
    if step.CreateSecret? {
      JobsHold(setup, s);
      assert JobInv(setup, s.versions, s.jobs[step.w]);
    }
  }

  // ------------------------------------------------------------ where it is from

  ghost predicate Moves(setup: Setup, s: State, step: Step, t: State) {
    Enabled(setup, s, step) && t == Next(setup, s, step)
  }

  /** A run with all its states. */
  ghost predicate History(setup: Setup, states: seq<State>, steps: seq<Step>) {
    |states| == |steps| + 1 && forall i :: 0 <= i < |steps| ==> Moves(setup, states[i], steps[i], states[i + 1])
  }

  /** Every run has one. */
  lemma {:induction false} RunHasHistory(setup: Setup, s: State, steps: seq<Step>, last: State) returns (states: seq<State>)
    requires Runs(setup, s, steps, last)
    ensures History(setup, states, steps) && states[0] == s && states[|steps|] == last
    decreases |steps|
  {
    hide Next, Enabled;
    if steps == [] {
      states := [s];
    } else {
      var later := RunHasHistory(setup, Next(setup, s, steps[0]), steps[1..], last);
      states := [s] + later;
      forall i | 0 <= i < |steps| ensures Moves(setup, states[i], steps[i], states[i + 1]) {
        if i > 0 {
          assert Moves(setup, later[i - 1], steps[1..][i - 1], later[i]);
        }
      }
    }
  }

  lemma {:induction false} InvThroughout(setup: Setup, states: seq<State>, steps: seq<Step>, n: nat)
    requires History(setup, states, steps) && n <= |steps| && Init(states[0])
    ensures Inv(setup, states[n])
  {
    hide Next, Enabled, Inv, Init;
    if n == 0 {
      InitInv(setup, states[0]);
    } else {
      InvThroughout(setup, states, steps, n - 1);
      assert Moves(setup, states[n - 1], steps[n - 1], states[n]);
      StepKeepsInv(setup, states[n - 1], steps[n - 1]);
    }
  }

  /** The worker read this pod version at moment i and has held it up to moment n. */
  predicate HeldSince(states: seq<State>, steps: seq<Step>, i: nat, n: nat, w: nat, pod: Pod)
    requires |states| == |steps| + 1 && n <= |steps|
  {
    i < n && steps[i].FetchPod? && steps[i].w == w && steps[i].podSeen == Some(pod) &&
    forall m :: i < m <= n ==> w in states[m].jobs && states[m].jobs[w].phase.pod == pod
  }

  /** Where a worker's job is from: the pod read at moment i, the secret built at moment j. */
  predicate JobFrom(states: seq<State>, steps: seq<Step>, n: nat, w: nat, i: nat, j: nat)
    requires |states| == |steps| + 1 && n <= |steps| && w in states[n].jobs
  {
    var phase := states[n].jobs[w].phase;
    HeldSince(states, steps, i, n, w, phase.pod) &&
    (phase.Built? && phase.secret.origin.Operator? ==>
       i < j < n && steps[j] == BuildConfig(w) && states[j].env == phase.secret.origin.env)
  }

  lemma JobStep(setup: Setup, s: State, step: Step, w: nat)
    requires Enabled(setup, s, step) && w in Next(setup, s, step).jobs
    ensures var phase := Next(setup, s, step).jobs[w].phase;
            if step.FetchPod? && step.w == w then phase.Fetched? && step.podSeen == Some(phase.pod)
            else
              w in s.jobs && s.jobs[w].phase.pod == phase.pod &&
              (phase.Built? && step == BuildConfig(w) ==>
                phase.secret.origin.Operator? && phase.secret.origin.env == s.env) &&
              (phase.Built? && step != BuildConfig(w) ==> s.jobs[w].phase == phase)
  {
    hide ConfigFor, Owns, Collectable, Live, PodVisible, Marked, SecretName;
  }

  lemma {:induction false} JobHistory(setup: Setup, states: seq<State>, steps: seq<Step>, n: nat, w: nat) returns (i: nat, j: nat)
    requires History(setup, states, steps) && n <= |steps| && states[0].jobs == map[] && w in states[n].jobs
    ensures JobFrom(states, steps, n, w, i, j)
  {
    hide Next, Enabled;
    var step := steps[n - 1];
    assert Moves(setup, states[n - 1], step, states[n]);
    JobStep(setup, states[n - 1], step, w);
    if step.FetchPod? && step.w == w {
      i, j := n - 1, n - 1;
    } else {
      i, j := JobHistory(setup, states, steps, n - 1, w);
      if step == BuildConfig(w) {
        j := n - 1;
      }
    }
  }

  /**
    Where an operator secret is from: one worker read the pod at moment i, held that version,
    built in the environment of moment j, and created the secret at moment k, where there was none.
  */
  predicate SecretFrom(states: seq<State>, steps: seq<Step>, key: Key, secret: Secret, i: nat, j: nat, k: nat)
    requires |states| == |steps| + 1
  {
    secret.origin.Operator? && i < j < k < |steps| && steps[k].CreateSecret? &&
    HeldSince(states, steps, i, k, steps[k].w, secret.origin.pod) &&
    steps[j] == BuildConfig(steps[k].w) && states[j].env == secret.origin.env &&
    key !in states[k].secrets && key in states[k + 1].secrets && states[k + 1].secrets[key] == secret
  }

  lemma NewSecret(setup: Setup, s: State, step: Step, key: Key)
    requires Inv(setup, s) && Enabled(setup, s, step) && Operators(Next(setup, s, step), key)
    requires !(key in s.secrets && s.secrets[key] == Next(setup, s, step).secrets[key])
    ensures key !in s.secrets && step.CreateSecret? && step.w in s.jobs && s.jobs[step.w].phase.Built?
    ensures Next(setup, s, step).secrets[key] == s.jobs[step.w].phase.secret
    ensures s.jobs[step.w].phase.secret.origin.pod == s.jobs[step.w].phase.pod
  {
    hide ConfigFor, MakeSecret, Owns, Collectable, Live, PodVisible, Marked, SecretName;
    if step.CreateSecret? {
      JobsHold(setup, s);
      assert JobInv(setup, s.versions, s.jobs[step.w]);
    }
  }

  lemma {:induction false} SecretHistory(setup: Setup, states: seq<State>, steps: seq<Step>, n: nat, key: Key) returns (i: nat, j: nat, k: nat)
    requires History(setup, states, steps) && n <= |steps| && Init(states[0]) && Operators(states[n], key)
    ensures SecretFrom(states, steps, key, states[n].secrets[key], i, j, k)
  {
    hide Next, Enabled, Inv;
    assert n > 0;
    var s, step := states[n - 1], steps[n - 1];
    assert Moves(setup, s, step, states[n]);
    if key in s.secrets && s.secrets[key] == states[n].secrets[key] {
      i, j, k := SecretHistory(setup, states, steps, n - 1, key);
    } else {
      InvThroughout(setup, states, steps, n - 1);
      NewSecret(setup, s, step, key);
      k := n - 1;
      i, j := JobHistory(setup, states, steps, k, step.w);
    }
  }

  /**
    In every reachable state, each secret the operator created has exactly one owner, the pod a
    worker read; lies in that pod's namespace under that pod's label; and holds the
    configuration of that same pod version, in the class data and gates that were in force at one
    moment between the worker's read of the pod and its create.
  */
  lemma ReachableSecretsFaithful(setup: Setup, states: seq<State>, steps: seq<Step>, key: Key)
    requires History(setup, states, steps) && Init(states[0])
    requires Operators(states[|steps|], key)
    ensures var s := states[|steps|]; TrueTo(setup, key, s.secrets[key]) && s.secrets[key].origin.pod in s.versions
    ensures exists i, j, k :: SecretFrom(states, steps, key, states[|steps|].secrets[key], i, j, k)
  {
    hide Moves, Init, SecretFrom, TrueTo, ConfigFor, JobsInv, PodsInv;
    InvThroughout(setup, states, steps, |steps|);
    FaithfulIsTrueTo(setup, states[|steps|], key);
    var i, j, k := SecretHistory(setup, states, steps, |steps|, key);
  }

  /**
    The secret is for its pod and no other: in owner, namespace, name and labels, and in holding,
    as its only datum, the rendering of the configuration the pod's annotations stand for in the
    class data and gates it was built in.
  */
  ghost predicate TrueTo(setup: Setup, key: Key, secret: Secret) {
    secret.origin.Operator? &&
    var p, env := secret.origin.pod, secret.origin.env;
    secret.owners == [Owner(p.name, p.uid)] &&
    key.namespace == p.namespace && HasLabel(p.labels, SIDECAR_SECRET_NAME, key.name) &&
    HasLabel(secret.labels, SECRET_MANAGED_BY, CONTROLLER_NAME) && HasLabel(secret.labels, SECRET_POD, p.name) &&
    HasLabel(secret.labels, SECRET_CLASS_NAME, if CLASS in p.annotations then p.annotations[CLASS] else setup.settings.defaultClass) &&
    secret.data.Keys == {CONFIG_KEY} && Renders(setup, env, p, secret.data[CONFIG_KEY])
  }

  /** The text renders the configuration of the pod in the environment. */
  ghost predicate Renders(setup: Setup, env: Environment, p: Pod, text: string) {
    exists c :: Configure(setup.lib, setup.settings, env.classes, env.gates, p.annotations) == Ok(c) && setup.lib.marshal(c) == Some(text)
  }

  lemma ConfigForRenders(setup: Setup, env: Environment, p: Pod)
    ensures forall text :: ConfigFor(setup, env, p) == Ok(text) <==> Renders(setup, env, p, text)
  {
    hide Configure;
  }

  lemma FaithfulIsTrueTo(setup: Setup, s: State, key: Key)
    requires Inv(setup, s) && Operators(s, key)
    ensures TrueTo(setup, key, s.secrets[key]) && s.secrets[key].origin.pod in s.versions
  {
    assert Faithful(setup, s.versions, key, s.secrets[key]);
    MadeIsTrue(setup, s.secrets[key].origin.env, s.secrets[key].origin.pod);
    hide ConfigFor, MakeSecret, TrueTo;
  }

  lemma MadeIsTrue(setup: Setup, env: Environment, p: Pod)
    requires ConfigFor(setup, env, p).Ok? && SecretName(p) != ""
    ensures TrueTo(setup, SecretKey(p), MakeSecret(setup, env, p, ConfigFor(setup, env, p).value))
  {
    hide ConfigFor, Renders;
    ConfigForRenders(setup, env, p);
    SecretLabelsDiffer();
  }

  lemma SecretLabelsDiffer()
    ensures SECRET_CLASS_NAME != SECRET_POD && SECRET_CLASS_NAME != SECRET_MANAGED_BY && SECRET_CLASS_NAME != SECRET_CREATED_BY
    ensures SECRET_POD != SECRET_MANAGED_BY && SECRET_POD != SECRET_CREATED_BY
  {
    assert SECRET_CLASS_NAME[0] == SECRET_POD[0] == PREFIX[0];
    assert SECRET_CLASS_NAME[|PREFIX| + 1] == "/class"[1] && SECRET_POD[|PREFIX| + 1] == "/pod"[1];
  }

  /**
    From admission to secret: a secret created for a pod that still carries the label the webhook
    gave it, whatever name the pod has got since, has the name the webhook put into the pod's
    volume, and that name has at most 63 characters.
  */
  lemma OneNameThroughout(p: Pod, q: Pod, settings: Sidecar.Settings, native: bool, suffix: string, parses: string -> bool,
                          err: Option<Injector.InjectError>, setup: Setup, versions: set<Pod>, key: Key, secret: Secret)
    requires Injector.RandomSuffix(suffix) && Injector.Admits(p, q, settings, native, suffix, parses, err) && q != p
    requires Faithful(setup, versions, key, secret) && SecretName(secret.origin.pod) == SecretName(q)
    ensures q.volumes == p.volumes + [Volume(Injector.CONFIG_VOLUME, Some(key.name))]
    ensures key.name == Injector.GenerateSecretName(settings.secretNamePrefix, Injector.Identifier(p), suffix)
    ensures |key.name| <= 63
  {
    hide ConfigFor, Injector.GenerateSecretName, Injector.HasTelegraf, Injector.IsSidecar;
    Injector.AdmissionAppends(p, q, settings, native, suffix, parses, err);
    Injector.SecretNameLength(settings.secretNamePrefix, Injector.Identifier(p), suffix);
    Injector.LabelKeysDiffer();
  }

  /** No update of the pod with this UID changes its secret-name label. */
  ghost predicate LabelKept(steps: seq<Step>, uid: Uid, name: string) {
    forall i :: 0 <= i < |steps| && steps[i].UpdatePod? && steps[i].pod.uid == uid ==> SecretName(steps[i].pod) == name
  }

  ghost predicate NameFixed(s: State, v: Pod) {
    v in s.versions && forall p :: p in s.versions && p.uid == v.uid ==> SecretName(p) == SecretName(v)
  }

  lemma {:induction false} NameStaysFixed(setup: Setup, s: State, steps: seq<Step>, last: State, v: Pod)
    requires NameFixed(s, v) && Runs(setup, s, steps, last) && LabelKept(steps, v.uid, SecretName(v))
    ensures NameFixed(last, v)
    decreases |steps|
  {
    hide ConfigFor, MakeSecret, Owns, Collectable, PodVisible, Marked, Live, SecretName;
    if steps != [] {
      var n := Next(setup, s, steps[0]);
      assert NameFixed(n, v);
      assert forall i :: 0 <= i < |steps[1..]| ==> steps[1..][i] == steps[i + 1];
      hide Next, Enabled, NameFixed;
      NameStaysFixed(setup, n, steps[1..], last, v);
    }
  }

  /**
    Over runs: an admitted pod is stored, under whatever name and UID the cluster gives it. Unless
    somebody edits its label, in every later state each operator secret it owns lies in its
    namespace under the very name in its volume.
  */
  lemma OneNameForGood(p: Pod, q: Pod, settings: Sidecar.Settings, native: bool, suffix: string, parses: string -> bool,
                       err: Option<Injector.InjectError>, setup: Setup, s0: State, before: seq<Step>, s: State,
                       v: Pod, after: seq<Step>, last: State, key: Key)
    requires Injector.RandomSuffix(suffix) && Injector.Admits(p, q, settings, native, suffix, parses, err) && q != p
    requires Init(s0) && Runs(setup, s0, before, s) && Enabled(setup, s, CreatePod(v)) && v.labels == q.labels
    requires Runs(setup, Next(setup, s, CreatePod(v)), after, last) && LabelKept(after, v.uid, SecretName(v))
    requires Operators(last, key) && Owns(last.secrets[key], v.uid)
    ensures q.volumes == p.volumes + [Volume(Injector.CONFIG_VOLUME, Some(key.name))]
    ensures key.namespace == v.namespace && |key.name| <= 63
  {
    hide ConfigFor, Runs, Init, Injector.Admits, LabelKept, MakeSecret, Live, Collectable;
    InitInv(setup, s0);
    RunKeepsInv(setup, s0, before, s);
    StepKeepsInv(setup, s, CreatePod(v));
    var n := Next(setup, s, CreatePod(v));
    RunKeepsInv(setup, n, after, last);
    assert NameFixed(n, v);
    NameStaysFixed(setup, n, after, last, v);
    hide Next, Enabled;
    var secret := last.secrets[key];
    assert Faithful(setup, last.versions, key, secret);
    NoLeak(setup, last, key);
    OwnedByOrigin(setup, last.versions, key, secret, v.uid);
    OneNameThroughout(p, q, settings, native, suffix, parses, err, setup, last.versions, key, secret);
  }

  lemma OwnedByOrigin(setup: Setup, versions: set<Pod>, key: Key, secret: Secret, uid: Uid)
    requires Faithful(setup, versions, key, secret) && Owns(secret, uid)
    ensures secret.origin.pod.uid == uid
  {
    hide ConfigFor;
  }

  // ------------------------------------------------------------------ no leak

  predicate Operators(s: State, key: Key) {
    key in s.secrets && s.secrets[key].origin.Operator?
  }

  /** Each operator secret is owned by a live pod, or the collector may take it; never neither, never both. */
  lemma NoLeak(setup: Setup, s: State, key: Key)
    requires Inv(setup, s) && Operators(s, key)
    ensures Live(s, key.namespace, s.secrets[key].origin.pod.uid) <==> !Collectable(s, key)
    ensures Owns(s.secrets[key], s.secrets[key].origin.pod.uid)
  {
    hide ConfigFor, Live;
    assert Faithful(setup, s.versions, key, s.secrets[key]);
    assert s.secrets[key].owners[0] in s.secrets[key].owners;
  }

  /** A pod that dies between the worker's read and its create leaves a secret that is collectable at once. */
  lemma LateCreateIsCollectable(setup: Setup, s: State, w: nat)
    requires Inv(setup, s) && Enabled(setup, s, CreateSecret(w))
    requires var p := s.jobs[w].phase.pod; SecretKey(p) !in s.secrets && SecretName(p) != "" && !Live(s, p.namespace, p.uid)
    ensures Collectable(Next(setup, s, CreateSecret(w)), SecretKey(s.jobs[w].phase.pod))
  {
    hide ConfigFor;
    JobsHold(setup, s);
    assert JobInv(setup, s.versions, s.jobs[w]);
    var t := Next(setup, s, CreateSecret(w));
    assert t.pods == s.pods;
  }

  /** UIDs are not reused: once the pod of a known UID is gone from a namespace it stays gone. */
  lemma DeadStaysDead(setup: Setup, s: State, step: Step, namespace: string, v: Pod)
    requires PodsInv(s) && Enabled(setup, s, step) && v in s.versions && !Live(s, namespace, v.uid)
    ensures !Live(Next(setup, s, step), namespace, v.uid)
  {
    hide ConfigFor, MakeSecret, Owns, Collectable, PodVisible, Marked;
    var t := Next(setup, s, step);
    forall k | k in t.pods && k.namespace == namespace ensures t.pods[k].uid != v.uid {
      assert k in s.pods ==> s.pods[k].uid != v.uid;
    }
  }

  /** So a collectable operator secret stays collectable, whatever else happens, until it is gone. */
  lemma {:induction false} OrphansStayCollectable(setup: Setup, s: State, steps: seq<Step>, last: State, key: Key)
    requires Inv(setup, s) && Runs(setup, s, steps, last)
    requires Operators(s, key) && Collectable(s, key)
    requires key in last.secrets && last.secrets[key] == s.secrets[key]
    ensures Collectable(last, key)
    decreases |steps|
  {
    var v := s.secrets[key].origin.pod;
    assert Faithful(setup, s.versions, key, s.secrets[key]);
    assert s.secrets[key].owners[0] in s.secrets[key].owners;
    DeadThroughout(setup, s, steps, last, key.namespace, v);
    hide ConfigFor, Live, Runs;
  }

  lemma {:induction false} DeadThroughout(setup: Setup, s: State, steps: seq<Step>, last: State, namespace: string, v: Pod)
    requires Inv(setup, s) && Runs(setup, s, steps, last) && v in s.versions && !Live(s, namespace, v.uid)
    ensures !Live(last, namespace, v.uid)
    decreases |steps|
  {
    hide Next, Enabled, Live, JobsInv, SecretsInv;
    if steps != [] {
      DeadStaysDead(setup, s, steps[0], namespace, v);
      StepKeepsInv(setup, s, steps[0]);
      StepKeepsPods(setup, s, steps[0]);
      DeadThroughout(setup, Next(setup, s, steps[0]), steps[1..], last, namespace, v);
    }
  }

  lemma CollectingLeavesOthers(setup: Setup, s: State, key: Key)
    requires Collectable(s, key)
    ensures Enabled(setup, s, Collect(key))
    ensures var t := Next(setup, s, Collect(key));
            t.pods == s.pods && t.jobs == s.jobs && t.secrets == s.secrets - {key} && |t.secrets| < |s.secrets| && key in s.secrets &&
            forall k :: Collectable(t, k) <==> k != key && Collectable(s, k)
  {
    var t := Next(setup, s, Collect(key));
    assert s.secrets.Keys == t.secrets.Keys + {key};
    hide Live;
    assert forall n, u :: Live(t, n, u) <==> Live(s, n, u) by {
      SamePodsSameLive(s, t);
    }
  }

  lemma SamePodsSameLive(s: State, t: State)
    requires s.pods == t.pods
    ensures forall n, u :: Live(t, n, u) <==> Live(s, n, u)
  {
  }

  /** The collector alone reaches a state with nothing to collect, and takes nothing else. */
  lemma {:induction false} CollectorDrains(setup: Setup, s: State) returns (steps: seq<Step>, last: State)
    ensures Runs(setup, s, steps, last) && forall i :: 0 <= i < |steps| ==> steps[i].Collect?
    ensures last.pods == s.pods && last.jobs == s.jobs && forall k :: !Collectable(last, k)
    ensures forall k :: k in last.secrets <==> k in s.secrets && !Collectable(s, k)
    ensures forall k :: k in last.secrets ==> last.secrets[k] == s.secrets[k]
    decreases |s.secrets|
  {
    if exists k :: Collectable(s, k) {
      var key :| Collectable(s, key);
      var t := Next(setup, s, Collect(key));
      CollectingLeavesOthers(setup, s, key);
      hide Next, Collectable, Enabled;
      assert Enabled(setup, s, Collect(key));
      steps, last := CollectorDrains(setup, t);
      var all := [Collect(key)] + steps;
      assert all[1..] == steps;
      steps := all;
    } else {
      steps, last := [], s;
    }
  }

  // --------------------------------------------------------------- one to one

  /** Pod updates that keep the secret-name label. */
  predicate KeepsName(s: State, step: Step) {
    step.UpdatePod? && PodKey(step.pod) in s.pods ==> SecretName(step.pod) == SecretName(s.pods[PodKey(step.pod)])
  }

  ghost predicate NamesKept(setup: Setup, s: State, steps: seq<Step>)
    decreases |steps|
  {
    steps != [] && Enabled(setup, s, steps[0]) ==> KeepsName(s, steps[0]) && NamesKept(setup, Next(setup, s, steps[0]), steps[1..])
  }

  ghost predicate NamesInv(s: State) {
    forall p, q :: p in s.versions && q in s.versions && p.uid == q.uid ==> SecretName(p) == SecretName(q)
  }

  lemma StepKeepsNames(setup: Setup, s: State, step: Step)
    requires PodsInv(s) && NamesInv(s) && Enabled(setup, s, step) && KeepsName(s, step)
    ensures NamesInv(Next(setup, s, step))
  {
    hide ConfigFor, MakeSecret, Owns, Collectable, PodVisible, Marked, Live, SecretName;
    if step.UpdatePod? {
      assert s.pods[PodKey(step.pod)] in s.versions;
    }
  }

  lemma {:induction false} RunKeepsNames(setup: Setup, s: State, steps: seq<Step>, last: State)
    requires Inv(setup, s) && NamesInv(s) && Runs(setup, s, steps, last) && NamesKept(setup, s, steps)
    ensures NamesInv(last)
    decreases |steps|
  {
    hide Next, Enabled, NamesInv, KeepsName, JobsInv, SecretsInv;
    if steps != [] {
      StepKeepsNames(setup, s, steps[0]);
      StepKeepsInv(setup, s, steps[0]);
      RunKeepsNames(setup, Next(setup, s, steps[0]), steps[1..], last);
    }
  }

  /**
    If secret-name labels stay fixed, then once the collector has drained, every operator secret
    belongs to a live pod that names it, and no two belong to the same pod.
  */
  lemma DrainedSecretsMapIntoPods(setup: Setup, s0: State, steps: seq<Step>, s: State)
    requires Init(s0) && Runs(setup, s0, steps, s) && NamesKept(setup, s0, steps)
    requires forall k :: !Collectable(s, k)
    ensures forall k :: Operators(s, k) ==>
      exists pk :: pk in s.pods && SecretKey(s.pods[pk]) == k && s.secrets[k].owners == [Owner(pk.name, s.pods[pk].uid)]
    ensures forall j, k :: Operators(s, j) && Operators(s, k) && s.secrets[j].owners == s.secrets[k].owners ==> j == k
  {
    InitInv(setup, s0);
    RunKeepsInv(setup, s0, steps, s);
    assert NamesInv(s0);
    RunKeepsNames(setup, s0, steps, s);
    forall k | Operators(s, k)
      ensures exists pk :: pk in s.pods && SecretKey(s.pods[pk]) == k && s.secrets[k].owners == [Owner(pk.name, s.pods[pk].uid)] {
      OwnerIsLive(setup, s, k);
    }
    forall j, k | Operators(s, j) && Operators(s, k) && s.secrets[j].owners == s.secrets[k].owners
      ensures j == k {
      SameOwnerSameKey(setup, s, j, k);
    }
  }

  lemma OwnerIsLive(setup: Setup, s: State, k: Key)
    requires Inv(setup, s) && NamesInv(s) && !Collectable(s, k) && Operators(s, k)
    ensures exists pk :: pk in s.pods && SecretKey(s.pods[pk]) == k && s.secrets[k].owners == [Owner(pk.name, s.pods[pk].uid)]
  {
    hide ConfigFor, Collectable, SecretName;
    NoLeak(setup, s, k);
    var v := s.secrets[k].origin.pod;
    assert Faithful(setup, s.versions, k, s.secrets[k]);
    var pk :| pk in s.pods && pk.namespace == k.namespace && s.pods[pk].uid == v.uid;
    assert s.pods[pk] in s.versions;
    assert PodKey(s.pods[pk]) == PodKey(v) == pk;
    assert SecretKey(s.pods[pk]) == k;
  }

  lemma SameOwnerSameKey(setup: Setup, s: State, j: Key, k: Key)
    requires Inv(setup, s) && NamesInv(s) && Operators(s, j) && Operators(s, k)
    requires s.secrets[j].owners == s.secrets[k].owners
    ensures j == k
  {
    hide ConfigFor, SecretName;
    var p, q := s.secrets[j].origin.pod, s.secrets[k].origin.pod;
    assert Faithful(setup, s.versions, j, s.secrets[j]) && Faithful(setup, s.versions, k, s.secrets[k]);
    assert s.secrets[j].owners[0] == Owner(p.name, p.uid) && s.secrets[k].owners[0] == Owner(q.name, q.uid);
    assert PodKey(p) == PodKey(q) && SecretName(p) == SecretName(q);
  }
}
