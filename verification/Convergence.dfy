/**
  When a live pod gets its secret. A pod whose name is free, or held by a secret left over
  from a dead pod, gets its own in every fair run, whatever the other pods and workers do;
  a worker that loses the race to create ends in success and the pod is left without.
*/
module Convergence {
  import opened Text
  import opened Metadata
  import opened Objects
  import opened Telegraf
  import opened Protocol
  import opened ProtocolSafety

  // ---------------------------------------------------------- the assumptions

  /** The pod is live, marked and visible, names a secret, and can be configured. */
  ghost predicate Served(setup: Setup, s: State, p: Pod) {
    PodKey(p) in s.pods && s.pods[PodKey(p)] == p && Marked(p) && PodVisible(setup, p) && SecretName(p) != "" &&
    ConfigFor(setup, s.env, p).Ok?
  }

  predicate OnKey(s: State, step: Step, key: Key) {
    match step
    case FetchPod(_, k, _) => k == key
    case FetchSecret(w, _) => w in s.jobs && s.jobs[w].key == key
    case BuildConfig(w) => w in s.jobs && s.jobs[w].key == key
    case CreateSecret(w) => w in s.jobs && s.jobs[w].key == key
    case ApiFailure(w) => w in s.jobs && s.jobs[w].key == key
    case _ => false
  }

  /**
    The world leaves the pod and its name alone: the pod is not touched, nobody else writes or
    deletes under its secret's key or takes up another pod of that name, no environment makes
    its configuration fail, and its own worker reads fresh answers without API errors.
    Everything else is free, other pods and workers included.
  */
  ghost predicate Undisturbed(setup: Setup, s: State, step: Step, p: Pod) {
    match step
    case FetchPod(w, key, seen) =>
      if key == PodKey(p) then seen == ViewPod(setup, s.pods, key)
      else seen.Some? ==> SecretKey(seen.value) != SecretKey(p)
    case FetchSecret(w, seen) => OnKey(s, step, PodKey(p)) ==> seen == ViewSecret(setup, s.secrets, SecretKey(p))
    case ApiFailure(w) => !OnKey(s, step, PodKey(p))
    case CreatePod(q) => PodKey(q) != PodKey(p)
    case UpdatePod(q) => PodKey(q) != PodKey(p)
    case DeletePod(key) => key != PodKey(p)
    case CreateForeign(key, _) => key != SecretKey(p)
    case DeleteSecret(key) => key != SecretKey(p)
    case ChangeEnvironment(env) => ConfigFor(setup, env, p).Ok?
    case _ => true
  }

  // ----------------------------------------------------------- the situations

  /** The pod has its own secret. */
  predicate Own(s: State, p: Pod) {
    SecretKey(p) in s.secrets && s.secrets[SecretKey(p)].origin.Operator? && s.secrets[SecretKey(p)].origin.pod == p
  }

  predicate Free(s: State, p: Pod) {
    SecretKey(p) !in s.secrets
  }

  /** The name is held by an operator secret whose owner is dead. */
  predicate Held(s: State, p: Pod) {
    Operators(s, SecretKey(p)) && Collectable(s, SecretKey(p))
  }

  predicate Pending(s: State, p: Pod) {
    PodKey(p) in s.queue || Busy(s, PodKey(p))
  }

  /** The pod's own worker holds this version of it; workers on other pods hold other names. */
  ghost predicate WorkersApart(s: State, p: Pod) {
    forall w :: w in s.jobs ==>
      if s.jobs[w].key == PodKey(p) then s.jobs[w].phase.pod == p && (Held(s, p) ==> s.jobs[w].phase.Fetched?)
      else SecretKey(s.jobs[w].phase.pod) != SecretKey(p)
  }

  /** On the way: the pod has its secret, or its key is pending and nothing final stands in the way. */
  ghost predicate OnTheWay(setup: Setup, s: State, p: Pod) {
    Inv(setup, s) && Served(setup, s, p) && WorkersApart(s, p) &&
    (Own(s, p) || (Pending(s, p) && (Free(s, p) || Held(s, p))))
  }

  function PhaseRank(phase: Phase): nat {
    match phase
    case Fetched(_) => 3
    case Missing(_) => 2
    case Built(_, _) => 1
  }

  /** How many steps of progress are still missing. */
  ghost function Distance(s: State, p: Pod): nat {
    if Own(s, p) then 0
    else if !Free(s, p) then 5
    else if Busy(s, PodKey(p)) then
      var w :| w in s.jobs && s.jobs[w].key == PodKey(p);
      PhaseRank(s.jobs[w].phase)
    else 4
  }

  /** Progress is the collector taking the old secret, and any step of the pod's worker once the name is free. */
  predicate Progress(s: State, step: Step, p: Pod) {
    !Own(s, p) && if Free(s, p) then OnKey(s, step, PodKey(p)) else step == Collect(SecretKey(p))
  }

  function Count(b: bool): nat { if b then 1 else 0 }

  // ------------------------------------------------------------- single steps

  lemma BusyBy(setup: Setup, s: State, p: Pod, w: nat)
    requires Inv(setup, s) && w in s.jobs && s.jobs[w].key == PodKey(p) && Free(s, p)
    ensures Distance(s, p) == PhaseRank(s.jobs[w].phase)
  {
    hide ConfigFor, JobInv;
    assert !Own(s, p);
    assert forall x :: x in s.jobs && s.jobs[x].key == PodKey(p) ==> x == w;
  }

  /** The holder of the name is visible and belongs to another pod, so the pod's worker asks again. */
  lemma HolderIsOther(setup: Setup, s: State, p: Pod)
    requires Inv(setup, s) && Served(setup, s, p) && Held(s, p)
    ensures ViewSecret(setup, s.secrets, SecretKey(p)) == Some(s.secrets[SecretKey(p)])
    ensures !Owns(s.secrets[SecretKey(p)], p.uid) && !Own(s, p)
  {
    hide ConfigFor;
    var key := SecretKey(p);
    assert Faithful(setup, s.versions, key, s.secrets[key]);
    assert s.pods[PodKey(p)].uid == p.uid && PodKey(p).namespace == key.namespace;
    assert Live(s, key.namespace, p.uid);
    NoLeak(setup, s, key);
  }

  /** The pod's own secret is visible, owned by it, and out of the collector's reach. */
  lemma OwnIsKept(setup: Setup, s: State, p: Pod)
    requires Inv(setup, s) && Served(setup, s, p) && Own(s, p)
    ensures ViewSecret(setup, s.secrets, SecretKey(p)) == Some(s.secrets[SecretKey(p)])
    ensures Owns(s.secrets[SecretKey(p)], p.uid) && !Collectable(s, SecretKey(p))
  {
    hide ConfigFor;
    var key := SecretKey(p);
    assert Faithful(setup, s.versions, key, s.secrets[key]);
    assert s.pods[PodKey(p)].uid == p.uid && PodKey(p).namespace == key.namespace;
    assert Live(s, key.namespace, p.uid);
    NoLeak(setup, s, key);
  }

  lemma ServedStays(setup: Setup, s: State, step: Step, p: Pod)
    requires Served(setup, s, p) && Enabled(setup, s, step) && Undisturbed(setup, s, step, p)
    ensures Served(setup, Next(setup, s, step), p)
  {
    hide ConfigFor, MakeSecret, Owns, Collectable, PodVisible, Marked, Live, SecretName;
  }

  /** While the pod is served, only its own worker, the collector and nobody else touch its name. */
  lemma NameStays(setup: Setup, s: State, step: Step, p: Pod)
    requires OnTheWay(setup, s, p) && Enabled(setup, s, step) && Undisturbed(setup, s, step, p)
    ensures var t, key := Next(setup, s, step), SecretKey(p);
            (key in s.secrets && step != Collect(key) ==> key in t.secrets && t.secrets[key] == s.secrets[key]) &&
            (key in s.secrets && step == Collect(key) ==> key !in t.secrets && Held(s, p)) &&
            (key !in s.secrets && key in t.secrets ==> step.CreateSecret? && OnKey(s, step, PodKey(p)))
  {
    hide ConfigFor, MakeSecret, PodVisible, Marked, Live;
    if step == Collect(SecretKey(p)) && Own(s, p) {
      OwnIsKept(setup, s, p);
    }
  }

  lemma OwnSecretStays(setup: Setup, s: State, step: Step, p: Pod)
    requires OnTheWay(setup, s, p) && Own(s, p) && Enabled(setup, s, step) && Undisturbed(setup, s, step, p)
    ensures var t := Next(setup, s, step);
            Own(t, p) && t.secrets[SecretKey(p)] == s.secrets[SecretKey(p)]
  {
    OwnIsKept(setup, s, p);
    NameStays(setup, s, step, p);
    assert Operators(s, SecretKey(p));
    assert step != Collect(SecretKey(p));
    hide Next, Enabled, Inv, Served, Undisturbed, WorkersApart, Pending;
  }

  lemma OwnStep(setup: Setup, s: State, step: Step, p: Pod)
    requires OnTheWay(setup, s, p) && Own(s, p) && Enabled(setup, s, step) && Undisturbed(setup, s, step, p)
    ensures var t := Next(setup, s, step);
            Own(t, p) && t.secrets[SecretKey(p)] == s.secrets[SecretKey(p)] && OnTheWay(setup, t, p)
  {
    hide Next, Enabled, Inv, Served, Undisturbed, WorkersApart, Pending, Own, Held;
    var t := Next(setup, s, step);
    OwnSecretStays(setup, s, step, p);
    StepKeepsInv(setup, s, step);
    ServedStays(setup, s, step, p);
    FreshIsNotHeld(setup, t, p);
    ApartStays(setup, s, step, p);
  }

  /** Workers stay apart, as long as the name is not held behind a worker that looked before. */
  lemma ApartStays(setup: Setup, s: State, step: Step, p: Pod)
    requires OnTheWay(setup, s, p) && Enabled(setup, s, step) && Undisturbed(setup, s, step, p)
    requires Held(Next(setup, s, step), p) ==> Held(s, p)
    ensures WorkersApart(Next(setup, s, step), p)
  {
    hide ConfigFor, MakeSecret, Inv, PodVisible, Live, Collectable;
    var t := Next(setup, s, step);
    if step.FetchSecret? && OnKey(s, step, PodKey(p)) && Held(s, p) {
      HolderIsOther(setup, s, p);
    }
    forall w | w in t.jobs
      ensures if t.jobs[w].key == PodKey(p) then t.jobs[w].phase.pod == p && (Held(t, p) ==> t.jobs[w].phase.Fetched?)
              else SecretKey(t.jobs[w].phase.pod) != SecretKey(p) {
      assert w in s.jobs ==> t.jobs[w].key == s.jobs[w].key && t.jobs[w].phase.pod == s.jobs[w].phase.pod;
    }
  }

  lemma HeldStep(setup: Setup, s: State, step: Step, p: Pod)
    requires OnTheWay(setup, s, p) && Held(s, p) && Enabled(setup, s, step) && Undisturbed(setup, s, step, p)
    ensures var t := Next(setup, s, step);
            OnTheWay(setup, t, p) && if step == Collect(SecretKey(p)) then Free(t, p) else Held(t, p)
  {
    var t := Next(setup, s, step);
    StepKeepsInv(setup, s, step);
    ServedStays(setup, s, step, p);
    HolderIsOther(setup, s, p);
    NameStays(setup, s, step, p);
    var v := s.secrets[SecretKey(p)].origin.pod;
    assert Faithful(setup, s.versions, SecretKey(p), s.secrets[SecretKey(p)]);
    NoLeak(setup, s, SecretKey(p));
    DeadStaysDead(setup, s, step, SecretKey(p).namespace, v);
    if step != Collect(SecretKey(p)) {
      assert Operators(t, SecretKey(p));
      NoLeak(setup, t, SecretKey(p));
    }
    ApartStays(setup, s, step, p);
    HeldStaysPending(setup, s, step, p);
    hide Next, Enabled, Inv, Served, WorkersApart;
  }

  lemma HeldStaysPending(setup: Setup, s: State, step: Step, p: Pod)
    requires OnTheWay(setup, s, p) && Held(s, p) && Enabled(setup, s, step) && Undisturbed(setup, s, step, p)
    ensures Pending(Next(setup, s, step), p)
  {
    hide ConfigFor, MakeSecret, Collectable, Live;
    HolderIsOther(setup, s, p);
    PendingStays(setup, s, step, p);
  }

  /** The key leaves the pending state only when its worker ends without asking again. */
  lemma PendingStays(setup: Setup, s: State, step: Step, p: Pod)
    requires Enabled(setup, s, step) && Served(setup, s, p) && Pending(s, p)
    requires step.FetchPod? && step.key == PodKey(p) ==> step.podSeen == Some(p)
    requires OnKey(s, step, PodKey(p)) ==> step.FetchPod? || (PodKey(p) in Next(setup, s, step).queue) || step.w in Next(setup, s, step).jobs
    ensures Pending(Next(setup, s, step), p)
  {
    hide ConfigFor, MakeSecret, Collectable, Live, Owns;
    var t := Next(setup, s, step);
    if step.FetchPod? && step.key == PodKey(p) {
      assert t.jobs[step.w].key == PodKey(p);
    } else if OnKey(s, step, PodKey(p)) {
      if step.w in t.jobs {
        assert t.jobs[step.w].key == PodKey(p);
      }
    } else {
      OthersLeaveKey(setup, s, step, PodKey(p));
    }
  }

  /** The pod's own worker, with the name free, always gets one step nearer. */
  lemma FreeOwnStep(setup: Setup, s: State, step: Step, p: Pod)
    requires OnTheWay(setup, s, p) && Free(s, p) && Enabled(setup, s, step) && Undisturbed(setup, s, step, p)
    requires OnKey(s, step, PodKey(p))
    ensures var t := Next(setup, s, step);
            (Own(t, p) || (Free(t, p) && Pending(t, p))) && Distance(t, p) < Distance(s, p)
  {
    hide ConfigFor, MakeSecret, Owns, Collectable, Live, SecretsInv, PodsInv;
    var t := Next(setup, s, step);
    StepKeepsInv(setup, s, step);
    if step.FetchPod? {
      assert step.podSeen == Some(p);
      assert !Busy(s, PodKey(p));
      assert t.jobs[step.w].key == PodKey(p);
      BusyBy(setup, t, p, step.w);
    } else {
      BusyBy(setup, s, p, step.w);
      if step.CreateSecret? {
        JobsHold(setup, s);
        assert JobInv(setup, s.versions, s.jobs[step.w]);
        assert Own(t, p);
      } else {
        assert t.jobs[step.w].key == PodKey(p);
        BusyBy(setup, t, p, step.w);
      }
    }
  }

  /** A step that is not on a key leaves the key's job as it is and does not take it off the queue. */
  lemma OthersLeaveKey(setup: Setup, s: State, step: Step, key: Key)
    requires Enabled(setup, s, step) && !OnKey(s, step, key)
    ensures var t := Next(setup, s, step);
            (forall w :: w in t.jobs && t.jobs[w].key == key <==> w in s.jobs && s.jobs[w].key == key) &&
            (forall w :: w in s.jobs && s.jobs[w].key == key ==> t.jobs[w] == s.jobs[w]) &&
            (key in s.queue ==> key in t.queue) && (step != Wake(key) && key !in s.queue ==> key !in t.queue)
  {
    hide ConfigFor, MakeSecret, Owns, Collectable, Live, PodVisible, Marked, SecretName;
  }

  lemma FreeOtherStep(setup: Setup, s: State, step: Step, p: Pod)
    requires OnTheWay(setup, s, p) && Free(s, p) && Enabled(setup, s, step) && Undisturbed(setup, s, step, p)
    requires !OnKey(s, step, PodKey(p))
    ensures var t := Next(setup, s, step);
            Free(t, p) && Pending(t, p) && Distance(t, p) <= Distance(s, p)
  {
    var t := Next(setup, s, step);
    NameStays(setup, s, step, p);
    assert Free(t, p);
    StepKeepsInv(setup, s, step);
    OthersLeaveKey(setup, s, step, PodKey(p));
    hide Next, Enabled, Undisturbed, Served, WorkersApart, Inv, Distance;
    if Busy(s, PodKey(p)) {
      var w :| w in s.jobs && s.jobs[w].key == PodKey(p);
      BusyBy(setup, s, p, w);
      BusyBy(setup, t, p, w);
    } else {
      WaitingIsFour(s, p);
      FreeIsNear(t, p);
    }
  }

  lemma FreeStep(setup: Setup, s: State, step: Step, p: Pod)
    requires OnTheWay(setup, s, p) && Free(s, p) && Enabled(setup, s, step) && Undisturbed(setup, s, step, p)
    ensures OnTheWay(setup, Next(setup, s, step), p)
    ensures Distance(Next(setup, s, step), p) + Count(Progress(s, step, p)) <= Distance(s, p)
  {
    var t := Next(setup, s, step);
    StepKeepsInv(setup, s, step);
    ServedStays(setup, s, step, p);
    if OnKey(s, step, PodKey(p)) {
      FreeOwnStep(setup, s, step, p);
    } else {
      FreeOtherStep(setup, s, step, p);
    }
    FreshIsNotHeld(setup, t, p);
    ApartStays(setup, s, step, p);
    hide Next, Enabled, Inv, Served, WorkersApart, Pending, Undisturbed, Held, Distance;
  }

  /** No step of anybody takes the pod further away, and each step of progress takes it nearer. */
  lemma StepApproaches(setup: Setup, s: State, step: Step, p: Pod)
    requires OnTheWay(setup, s, p) && Enabled(setup, s, step) && Undisturbed(setup, s, step, p)
    ensures OnTheWay(setup, Next(setup, s, step), p)
    ensures Distance(Next(setup, s, step), p) + Count(Progress(s, step, p)) <= Distance(s, p)
  {
    var t := Next(setup, s, step);
    if Own(s, p) {
      OwnStep(setup, s, step, p);
      OnlyOwnIsNear(t, p);
    } else if Free(s, p) {
      FreeStep(setup, s, step, p);
    } else {
      assert Held(s, p);
      HolderIsOther(setup, s, p);
      HeldStep(setup, s, step, p);
      HeldIsFar(s, p);
      if step == Collect(SecretKey(p)) {
        FreeIsNear(t, p);
      } else {
        DistanceBound(t, p);
      }
    }
    hide Next, Enabled, Inv, Served, WorkersApart, Pending, Undisturbed, Held, Distance, Free, Own;
  }

  lemma HeldIsFar(s: State, p: Pod)
    requires !Own(s, p) && !Free(s, p)
    ensures Distance(s, p) == 5
  {
  }

  lemma WaitingIsFour(s: State, p: Pod)
    requires Free(s, p) && !Busy(s, PodKey(p))
    ensures Distance(s, p) == 4
  {
  }

  lemma FreeIsNear(s: State, p: Pod)
    requires Free(s, p)
    ensures Distance(s, p) <= 4
  {
  }

  lemma FreshIsNotHeld(setup: Setup, t: State, p: Pod)
    requires Inv(setup, t) && Served(setup, t, p) && (Own(t, p) || Free(t, p))
    ensures !Held(t, p)
  {
    if Own(t, p) {
      OwnIsKept(setup, t, p);
    }
  }

  // ------------------------------------------------------------------- results

  /** A run in which the world leaves the pod alone throughout. */
  ghost predicate UndisturbedRun(setup: Setup, s: State, steps: seq<Step>, last: State, p: Pod)
    decreases |steps|
  {
    if steps == [] then last == s
    else
      Enabled(setup, s, steps[0]) && Undisturbed(setup, s, steps[0], p) &&
      UndisturbedRun(setup, Next(setup, s, steps[0]), steps[1..], last, p)
  }

  /** The steps of progress in a run. */
  ghost function ProgressMade(setup: Setup, s: State, steps: seq<Step>, p: Pod): nat
    decreases |steps|
  {
    if steps == [] || !Enabled(setup, s, steps[0]) then 0
    else Count(Progress(s, steps[0], p)) + ProgressMade(setup, Next(setup, s, steps[0]), steps[1..], p)
  }

  /** A worker is idle, and yet no step of progress is possible. */
  ghost predicate Settled(setup: Setup, s: State, p: Pod) {
    (exists w: nat :: w < MAX_CONCURRENT_RECONCILES && w !in s.jobs) &&
    forall step :: Enabled(setup, s, step) && Undisturbed(setup, s, step, p) ==> !Progress(s, step, p)
  }

  /**
    Convergence, over every interleaving with other pods, workers, secrets and environments: the
    distance is at most five, or four when the name is free; it never grows; every step of
    progress shortens it. So a run from a free name with four steps of progress has given the pod
    its own secret, and so has every run that ends where no progress is possible.
  */
  lemma {:induction false} Converges(setup: Setup, s: State, steps: seq<Step>, last: State, p: Pod)
    requires OnTheWay(setup, s, p) && UndisturbedRun(setup, s, steps, last, p)
    ensures OnTheWay(setup, last, p)
    ensures Distance(last, p) + ProgressMade(setup, s, steps, p) <= Distance(s, p) <= if Free(s, p) then 4 else 5
    ensures Free(s, p) && ProgressMade(setup, s, steps, p) >= 4 ==> Own(last, p)
    ensures Settled(setup, last, p) ==> Own(last, p)
    decreases |steps|
  {
    DistanceBound(s, p);
    hide Next, Enabled, OnTheWay, Undisturbed, Progress, Distance, Free, Own, Settled;
    if steps != [] {
      StepApproaches(setup, s, steps[0], p);
      Converges(setup, Next(setup, s, steps[0]), steps[1..], last, p);
    }
    OnlyOwnIsNear(last, p);
    SettledIsOwn(setup, last, p);
  }

  lemma SettledIsOwn(setup: Setup, s: State, p: Pod)
    requires OnTheWay(setup, s, p)
    ensures Settled(setup, s, p) ==> Own(s, p)
  {
    hide Enabled, Undisturbed, OnTheWay, Own, Progress;
    if Settled(setup, s, p) && !Own(s, p) {
      var step := ProgressPossible(setup, s, p);
      assert false;
    }
  }

  lemma DistanceBound(s: State, p: Pod)
    ensures Distance(s, p) <= if Free(s, p) then 4 else 5
  {
  }

  lemma OnlyOwnIsNear(s: State, p: Pod)
    ensures Distance(s, p) == 0 <==> Own(s, p)
  {
  }

  /** What the first worker has left to do. */
  function Load(s: State): nat {
    if 0 in s.jobs then PhaseRank(s.jobs[0].phase) else 0
  }

  /** All workers are busy with other keys, and the pod's key waits. */
  predicate Waiting(s: State, p: Pod) {
    Free(s, p) && !Busy(s, PodKey(p)) && forall w: nat :: w < MAX_CONCURRENT_RECONCILES ==> w in s.jobs
  }

  /** Until then some step leads on: one of progress, or, when the key waits for a worker, one that brings a worker nearer its end. */
  lemma ProgressPossible(setup: Setup, s: State, p: Pod) returns (step: Step)
    requires OnTheWay(setup, s, p) && !Own(s, p)
    ensures Enabled(setup, s, step) && Undisturbed(setup, s, step, p)
    ensures if Waiting(s, p) then Load(Next(setup, s, step)) < Load(s) else Progress(s, step, p)
  {
    hide ConfigFor, MakeSecret, JobsInv, SecretsInv;
    if !Free(s, p) {
      step := Collect(SecretKey(p));
    } else if Busy(s, PodKey(p)) {
      var w :| w in s.jobs && s.jobs[w].key == PodKey(p);
      step := NextOf(setup, s, p, w);
    } else if Waiting(s, p) {
      step := NextOf(setup, s, p, 0);
    } else {
      var w: nat :| w < MAX_CONCURRENT_RECONCILES && w !in s.jobs;
      step := FetchPod(w, PodKey(p), Some(p));
      assert s.pods[PodKey(p)] in s.versions;
    }
  }

  /** The next thing a worker does, with a fresh answer. */
  lemma NextOf(setup: Setup, s: State, p: Pod, w: nat) returns (step: Step)
    requires w in s.jobs && WorkersApart(s, p)
    ensures Enabled(setup, s, step) && Undisturbed(setup, s, step, p)
    ensures OnKey(s, step, s.jobs[w].key)
    ensures var t := Next(setup, s, step); w in t.jobs ==> PhaseRank(t.jobs[w].phase) < PhaseRank(s.jobs[w].phase)
    ensures PhaseRank(s.jobs[w].phase) > 0
  {
    hide ViewSecret, ConfigFor, MakeSecret, Owns, SecretName;
    step := match s.jobs[w].phase
      case Fetched(pod) => FetchSecret(w, ViewSecret(setup, s.secrets, SecretKey(pod)))
      case Missing(_) => BuildConfig(w)
      case Built(_, _) => CreateSecret(w);
  }

  /**
    From everywhere on the way the pod's own secret can be reached, with the world leaving the pod
    alone, also when its key has to wait for a worker.
  */
  lemma {:induction false} SecretReachable(setup: Setup, s: State, p: Pod) returns (steps: seq<Step>, last: State)
    requires OnTheWay(setup, s, p)
    ensures UndisturbedRun(setup, s, steps, last, p) && Own(last, p)
    decreases Distance(s, p), Load(s)
  {
    hide Next, Enabled, OnTheWay, Undisturbed, Progress, Distance, Own, Waiting, Load;
    if Own(s, p) {
      steps, last := [], s;
    } else {
      var step := ProgressPossible(setup, s, p);
      StepApproaches(setup, s, step, p);
      var rest;
      rest, last := SecretReachable(setup, Next(setup, s, step), p);
      steps := [step] + rest;
      assert steps[1..] == rest;
    }
  }

  /** Once there, the secret never changes again, however often the pod is reconciled. */
  lemma {:induction false} OwnSecretIsStable(setup: Setup, s: State, steps: seq<Step>, last: State, p: Pod)
    requires OnTheWay(setup, s, p) && Own(s, p) && UndisturbedRun(setup, s, steps, last, p)
    ensures Own(last, p) && last.secrets[SecretKey(p)] == s.secrets[SecretKey(p)]
    decreases |steps|
  {
    hide Next, Enabled, OnTheWay, Undisturbed;
    if steps != [] {
      OwnStep(setup, s, steps[0], p);
      OwnSecretIsStable(setup, Next(setup, s, steps[0]), steps[1..], last, p);
    }
  }

  /** The name is free, or held for a pod that is gone, and no worker holds a pod of that name or is on the key. */
  ghost predicate NameClear(s: State, p: Pod) {
    (Free(s, p) || Held(s, p)) && !Busy(s, PodKey(p)) &&
    forall w :: w in s.jobs ==> SecretKey(s.jobs[w].phase.pod) != SecretKey(p)
  }

  /** The pod comes up, and its key is queued. */
  function Launch(setup: Setup, s: State, p: Pod): State
    requires Enabled(setup, s, CreatePod(p))
  {
    Next(setup, Next(setup, s, CreatePod(p)), Wake(PodKey(p)))
  }

  /** A pod that comes up in such a state, and whose key is then queued, is on the way. */
  lemma NewPodIsOnTheWay(setup: Setup, s: State, p: Pod)
    requires Inv(setup, s) && Enabled(setup, s, CreatePod(p)) && NameClear(s, p)
    requires Marked(p) && PodVisible(setup, p) && SecretName(p) != "" && ConfigFor(setup, s.env, p).Ok?
    ensures OnTheWay(setup, Launch(setup, s, p), p)
  {
    hide ConfigFor, MakeSecret, Inv, PodVisible, Collectable, Live, Owns;
    var m := Next(setup, s, CreatePod(p));
    var t := Next(setup, m, Wake(PodKey(p)));
    StepKeepsInv(setup, s, CreatePod(p));
    StepKeepsInv(setup, m, Wake(PodKey(p)));
    assert forall w :: w in t.jobs ==> t.jobs[w].key != PodKey(p);
    if Held(s, p) {
      StaysHeld(setup, s, t, p);
    }
  }

  lemma StaysHeld(setup: Setup, s: State, t: State, p: Pod)
    requires Inv(setup, s) && Enabled(setup, s, CreatePod(p)) && Held(s, p)
    requires t == Launch(setup, s, p) && Inv(setup, t)
    ensures Held(t, p)
  {
    hide ConfigFor, MakeSecret, Live, Collectable;
    var key := SecretKey(p);
    NoLeak(setup, s, key);
    assert Faithful(setup, s.versions, key, s.secrets[key]);
    var m := Next(setup, s, CreatePod(p));
    DeadStaysDead(setup, s, CreatePod(p), key.namespace, s.secrets[key].origin.pod);
    SamePodsSameLive(m, t);
    NoLeak(setup, t, key);
  }

  /**
    From any start of the operator, through any run, to a pod that comes up under a clear name: it
    has a secret of its own after four steps of progress if the name was free, and in any case
    wherever a run ends with no progress possible, whatever else happens in between.
  */
  lemma NewPodGetsItsSecret(setup: Setup, s0: State, before: seq<Step>, s: State, p: Pod, steps: seq<Step>, last: State)
    requires Init(s0) && Runs(setup, s0, before, s)
    requires Enabled(setup, s, CreatePod(p)) && NameClear(s, p)
    requires Marked(p) && PodVisible(setup, p) && SecretName(p) != "" && ConfigFor(setup, s.env, p).Ok?
    requires UndisturbedRun(setup, Launch(setup, s, p), steps, last, p)
    requires (Free(s, p) && ProgressMade(setup, Launch(setup, s, p), steps, p) >= 4) || Settled(setup, last, p)
    ensures Own(last, p) && last.secrets[SecretKey(p)].owners == [Owner(p.name, p.uid)]
    ensures TrueTo(setup, SecretKey(p), last.secrets[SecretKey(p)])
  {
    hide ConfigFor, Enabled, Runs, Init, UndisturbedRun, ProgressMade, NameClear, Settled;
    InitInv(setup, s0);
    RunKeepsInv(setup, s0, before, s);
    NewPodIsOnTheWay(setup, s, p);
    assert Launch(setup, s, p).secrets == s.secrets;
    hide Launch;
    Converges(setup, Launch(setup, s, p), steps, last, p);
    FaithfulIsTrueTo(setup, last, SecretKey(p));
  }

  // -------------------------------------------------------------- endless runs

  /** Step i of an endless run, which leaves the pod alone. */
  ghost predicate StepAt(setup: Setup, states: nat -> State, steps: nat -> Step, p: Pod, i: nat) {
    Enabled(setup, states(i), steps(i)) && Undisturbed(setup, states(i), steps(i), p) &&
    states(i + 1) == Next(setup, states(i), steps(i))
  }

  ghost predicate Endless(setup: Setup, states: nat -> State, steps: nat -> Step, p: Pod) {
    forall i: nat :: StepAt(setup, states, steps, p, i)
  }

  /** From moment i on, the collector takes the secret under the pod's name at moment j, or may not take it. */
  ghost predicate CollectorTurn(states: nat -> State, steps: nat -> Step, p: Pod, i: nat, j: nat) {
    i <= j && (Own(states(j), p) || CollectorDue(states(j), steps(j), p))
  }

  predicate CollectorDue(s: State, step: Step, p: Pod) {
    step == Collect(SecretKey(p)) || !Collectable(s, SecretKey(p))
  }

  /** From moment i on, the pod's key is served at moment j, or it is not pending. */
  ghost predicate KeyTurn(states: nat -> State, steps: nat -> Step, p: Pod, i: nat, j: nat) {
    i <= j && (Own(states(j), p) || KeyDue(states(j), steps(j), p))
  }

  predicate KeyDue(s: State, step: Step, p: Pod) {
    OnKey(s, step, PodKey(p)) || !Pending(s, p)
  }

  ghost predicate FairAfter(states: nat -> State, steps: nat -> Step, p: Pod, i: nat) {
    (exists j: nat :: CollectorTurn(states, steps, p, i, j)) && (exists j: nat :: KeyTurn(states, steps, p, i, j))
  }

  /** The collector and the pod's key each get their turn again and again, as long as the pod has no secret. */
  ghost predicate Fair(states: nat -> State, steps: nat -> Step, p: Pod) {
    forall i: nat :: FairAfter(states, steps, p, i)
  }

  lemma NextApproaches(setup: Setup, states: nat -> State, steps: nat -> Step, p: Pod, i: nat)
    requires Endless(setup, states, steps, p) && OnTheWay(setup, states(i), p)
    ensures OnTheWay(setup, states(i + 1), p)
    ensures Distance(states(i + 1), p) + Count(Progress(states(i), steps(i), p)) <= Distance(states(i), p)
    ensures Own(states(i), p) ==> SameOwn(states(i), states(i + 1), p)
  {
    hide Next, Enabled, OnTheWay, Undisturbed, Distance, Progress, Own;
    assert StepAt(setup, states, steps, p, i);
    StepApproaches(setup, states(i), steps(i), p);
    if Own(states(i), p) {
      OwnStep(setup, states(i), steps(i), p);
    }
  }

  lemma {:induction false} EndlessApproach(setup: Setup, states: nat -> State, steps: nat -> Step, p: Pod, i: nat, j: nat)
    requires Endless(setup, states, steps, p) && OnTheWay(setup, states(i), p) && i <= j
    ensures OnTheWay(setup, states(j), p) && Distance(states(j), p) <= Distance(states(i), p)
    decreases j - i
  {
    hide *;
    if i < j {
      NextApproaches(setup, states, steps, p, i);
      EndlessApproach(setup, states, steps, p, i + 1, j);
    }
  }

  lemma TurnComes(states: nat -> State, steps: nat -> Step, p: Pod, i: nat) returns (j: nat)
    requires Fair(states, steps, p)
    ensures i <= j
    ensures Own(states(j), p) || if Free(states(i), p) then KeyDue(states(j), steps(j), p) else CollectorDue(states(j), steps(j), p)
  {
    hide Own, Free, KeyDue, CollectorDue;
    assert FairAfter(states, steps, p, i);
    if Free(states(i), p) {
      j :| KeyTurn(states, steps, p, i, j);
    } else {
      j :| CollectorTurn(states, steps, p, i, j);
    }
  }

  lemma TurnLeadsOn(setup: Setup, s: State, t: State, step: Step, p: Pod)
    requires OnTheWay(setup, s, p) && OnTheWay(setup, t, p) && !Own(s, p) && Distance(t, p) <= Distance(s, p)
    requires Own(t, p) || if Free(s, p) then KeyDue(t, step, p) else CollectorDue(t, step, p)
    ensures Distance(t, p) < Distance(s, p) || Progress(t, step, p)
  {
    DistanceBound(s, p);
    DistanceBound(t, p);
    OnlyOwnIsNear(s, p);
    OnlyOwnIsNear(t, p);
    if !Free(s, p) {
      HeldIsFar(s, p);
    }
    if !Own(t, p) && !Free(t, p) {
      HeldIsFar(t, p);
    }
    hide Distance, Inv, Served, WorkersApart, Own, Collectable;
  }

  /** Some later moment of a fair run is nearer. */
  lemma NearerLater(setup: Setup, states: nat -> State, steps: nat -> Step, p: Pod, i: nat) returns (j: nat)
    requires Endless(setup, states, steps, p) && Fair(states, steps, p) && OnTheWay(setup, states(i), p) && !Own(states(i), p)
    ensures i <= j && OnTheWay(setup, states(j), p) && Distance(states(j), p) < Distance(states(i), p)
  {
    hide *;
    j := TurnComes(states, steps, p, i);
    EndlessApproach(setup, states, steps, p, i, j);
    TurnLeadsOn(setup, states(i), states(j), steps(j), p);
    if Distance(states(j), p) >= Distance(states(i), p) {
      NextApproaches(setup, states, steps, p, j);
      CountOne(Progress(states(j), steps(j), p));
      j := j + 1;
    }
  }

  lemma CountOne(b: bool)
    requires b
    ensures Count(b) == 1
  {
  }

  /** The pod has its own secret in both states, and it is the same. */
  predicate SameOwn(s: State, t: State, p: Pod) {
    Own(s, p) && Own(t, p) && s.secrets[SecretKey(p)] == t.secrets[SecretKey(p)]
  }

  /** Every fair endless run gives the pod a secret of its own, for good. */
  lemma {:induction false} FairRunsConverge(setup: Setup, states: nat -> State, steps: nat -> Step, p: Pod, i: nat) returns (n: nat)
    requires Endless(setup, states, steps, p) && Fair(states, steps, p) && OnTheWay(setup, states(i), p)
    ensures forall m: nat :: n <= m ==> SameOwn(states(n), states(m), p)
    decreases Distance(states(i), p)
  {
    hide *;
    if Own(states(i), p) {
      n := i;
      forall m: nat | n <= m ensures SameOwn(states(n), states(m), p) {
        OwnForever(setup, states, steps, p, n, m);
      }
    } else {
      var j := NearerLater(setup, states, steps, p, i);
      n := FairRunsConverge(setup, states, steps, p, j);
    }
  }

  lemma {:induction false} OwnForever(setup: Setup, states: nat -> State, steps: nat -> Step, p: Pod, n: nat, m: nat)
    requires Endless(setup, states, steps, p) && OnTheWay(setup, states(n), p) && Own(states(n), p) && n <= m
    ensures SameOwn(states(n), states(m), p)
    decreases m - n
  {
    hide Next, Enabled, OnTheWay, Undisturbed, Own, Endless;
    if n < m {
      NextApproaches(setup, states, steps, p, n);
      OwnForever(setup, states, steps, p, n + 1, m);
    }
  }

  ghost predicate OwnFrom(states: nat -> State, p: Pod, n: nat) {
    forall j: nat :: n <= j ==> Own(states(j), p)
  }

  lemma OwnIsFair(states: nat -> State, steps: nat -> Step, p: Pod, n: nat)
    requires OwnFrom(states, p, n)
    ensures Fair(states, steps, p)
  {
    hide Own, KeyDue, CollectorDue;
    forall i: nat ensures FairAfter(states, steps, p, i) {
      var j := if i < n then n else i;
      assert CollectorTurn(states, steps, p, i, j) && KeyTurn(states, steps, p, i, j);
    }
  }

  /** So a pod that comes up under a clear name, in any reachable state, gets in every fair endless run a secret it alone owns, for good. */
  lemma NewPodConverges(setup: Setup, s0: State, before: seq<Step>, s: State, p: Pod, states: nat -> State, steps: nat -> Step)
    returns (n: nat)
    requires Init(s0) && Runs(setup, s0, before, s)
    requires Enabled(setup, s, CreatePod(p)) && NameClear(s, p)
    requires Marked(p) && PodVisible(setup, p) && SecretName(p) != "" && ConfigFor(setup, s.env, p).Ok?
    requires states(0) == Launch(setup, s, p) && Endless(setup, states, steps, p) && Fair(states, steps, p)
    ensures forall m: nat :: n <= m ==> SameOwn(states(n), states(m), p)
    ensures SecretKey(p) in states(n).secrets && states(n).secrets[SecretKey(p)].owners == [Owner(p.name, p.uid)]
    ensures TrueTo(setup, SecretKey(p), states(n).secrets[SecretKey(p)])
  {
    hide ConfigFor, Enabled, Runs, Init, NameClear, Launch, Fair, Endless;
    InitInv(setup, s0);
    RunKeepsInv(setup, s0, before, s);
    NewPodIsOnTheWay(setup, s, p);
    n := FairRunsConverge(setup, states, steps, p, 0);
    EndlessApproach(setup, states, steps, p, 0, n);
    assert SameOwn(states(n), states(n), p);
    FaithfulIsTrueTo(setup, states(n), SecretKey(p));
  }

  /** Such runs there are from everywhere on the way. */
  lemma FairRunExists(setup: Setup, s: State, p: Pod) returns (states: nat -> State, steps: nat -> Step)
    requires OnTheWay(setup, s, p)
    ensures states(0) == s && Endless(setup, states, steps, p) && Fair(states, steps, p)
  {
    hide Next, Enabled, Undisturbed, Own, ConfigFor, Endless, Fair, OwnFrom, UndisturbedRun, Inv, WorkersApart;
    var path, last := SecretReachable(setup, s, p);
    Converges(setup, s, path, last, p);
    var n: nat;
    states, steps, n := OwnAtTheEnd(setup, s, path, last, p);
    OwnIsFair(states, steps, p, n);
  }

  lemma {:induction false} OwnAtTheEnd(setup: Setup, s: State, path: seq<Step>, last: State, p: Pod)
    returns (states: nat -> State, steps: nat -> Step, n: nat)
    requires UndisturbedRun(setup, s, path, last, p) && Own(last, p) && ConfigFor(setup, last.env, p).Ok?
    ensures states(0) == s && Endless(setup, states, steps, p) && OwnFrom(states, p, n)
    decreases |path|
  {
    hide Next, Enabled, Undisturbed, Own, ConfigFor, Endless, OwnFrom;
    if path == [] {
      states, steps := StandStill(setup, s, p);
      n := 0;
    } else {
      var later, after;
      later, after, n := OwnAtTheEnd(setup, Next(setup, s, path[0]), path[1..], last, p);
      states, steps := StepFirst(setup, s, path[0], later, after, p, n);
      n := n + 1;
    }
  }

  lemma StandStill(setup: Setup, s: State, p: Pod) returns (states: nat -> State, steps: nat -> Step)
    requires Own(s, p) && ConfigFor(setup, s.env, p).Ok?
    ensures states(0) == s && Endless(setup, states, steps, p) && OwnFrom(states, p, 0)
  {
    hide Own, ConfigFor;
    states, steps := (i: nat) => s, (i: nat) => ChangeEnvironment(s.env);
    forall i: nat ensures StepAt(setup, states, steps, p, i) {
    }
  }

  lemma StepFirst(setup: Setup, s: State, step: Step, later: nat -> State, after: nat -> Step, p: Pod, n: nat)
    returns (states: nat -> State, steps: nat -> Step)
    requires Enabled(setup, s, step) && Undisturbed(setup, s, step, p) && later(0) == Next(setup, s, step)
    requires Endless(setup, later, after, p) && OwnFrom(later, p, n)
    ensures states(0) == s && Endless(setup, states, steps, p) && OwnFrom(states, p, n + 1)
  {
    hide Next, Enabled, Undisturbed, Own;
    states := (i: nat) => if i == 0 then s else later(i - 1);
    steps := (i: nat) => if i == 0 then step else after(i - 1);
    forall i: nat ensures StepAt(setup, states, steps, p, i) {
      assert i > 0 ==> StepAt(setup, later, after, p, i - 1);
    }
    forall j: nat | n + 1 <= j ensures Own(states(j), p) {
      assert states(j) == later(j - 1);
    }
  }

  // ------------------------------------------------------ where it does not

  /**
    Creating gives the pod its secret exactly when the key is absent. When it is present the
    worker still ends in success, without a requeue, and nothing has changed.
  */
  lemma CreateSucceedsExactly(setup: Setup, s: State, w: nat)
    requires Inv(setup, s) && Enabled(setup, s, CreateSecret(w)) && SecretName(s.jobs[w].phase.pod) != ""
    requires !Own(s, s.jobs[w].phase.pod)
    ensures var p, t := s.jobs[w].phase.pod, Next(setup, s, CreateSecret(w));
            (Own(t, p) <==> Free(s, p)) && t.queue == s.queue && !Busy(t, PodKey(p)) && (!Free(s, p) ==> t.secrets == s.secrets)
  {
    hide ConfigFor, MakeSecret;
    JobsHold(setup, s);
    assert JobInv(setup, s.versions, s.jobs[w]);
  }

  /** Nobody is working on the pod's key and nobody will. */
  predicate Forgotten(s: State, key: Key) {
    key !in s.queue && !Busy(s, key)
  }

  predicate MadeFor(secret: Secret, key: Key) {
    secret.origin.Operator? && PodKey(secret.origin.pod) == key
  }

  ghost predicate NeverWoken(steps: seq<Step>, key: Key) {
    forall i :: 0 <= i < |steps| ==> steps[i] != Wake(key)
  }

  lemma ForgottenStep(setup: Setup, s: State, step: Step, key: Key)
    requires Inv(setup, s) && Forgotten(s, key) && Enabled(setup, s, step) && step != Wake(key)
    ensures var t := Next(setup, s, step);
            Forgotten(t, key) &&
            forall k :: k in t.secrets && MadeFor(t.secrets[k], key) ==> k in s.secrets && t.secrets[k] == s.secrets[k]
  {
    var t := Next(setup, s, step);
    assert !OnKey(s, step, key);
    OthersLeaveKey(setup, s, step, key);
    NewSecretsAreForJobs(setup, s, step);
    hide Next, Enabled, Inv;
  }

  lemma NewSecretsAreForJobs(setup: Setup, s: State, step: Step)
    requires Inv(setup, s) && Enabled(setup, s, step)
    ensures var t := Next(setup, s, step);
            forall k :: k in t.secrets && t.secrets[k].origin.Operator? ==>
              (k in s.secrets && t.secrets[k] == s.secrets[k]) || Busy(s, PodKey(t.secrets[k].origin.pod))
  {
    hide ConfigFor, MakeSecret, Owns, Collectable, Live, PodVisible;
    if step.CreateSecret? {
      JobsHold(setup, s);
      assert JobInv(setup, s.versions, s.jobs[step.w]);
    }
  }

  /**
    After losing the race the pod is forgotten: in every run that does not wake its key, even
    one that removes the secret in its way, the operator never creates a secret for it.
  */
  lemma {:induction false} ForgottenForGood(setup: Setup, s: State, steps: seq<Step>, last: State, key: Key)
    requires Inv(setup, s) && Forgotten(s, key) && Runs(setup, s, steps, last) && NeverWoken(steps, key)
    ensures Forgotten(last, key)
    ensures forall k :: k in last.secrets && MadeFor(last.secrets[k], key) ==> k in s.secrets && last.secrets[k] == s.secrets[k]
    decreases |steps|
  {
    hide Next, Enabled, Inv, Forgotten, MadeFor;
    if steps != [] {
      assert steps[0] != Wake(key);
      ForgottenStep(setup, s, steps[0], key);
      StepKeepsInv(setup, s, steps[0]);
      assert NeverWoken(steps[1..], key);
      ForgottenForGood(setup, Next(setup, s, steps[0]), steps[1..], last, key);
    }
  }

  /**
    The race is real: whenever a worker has found no secret, a third party writing one under
    the name before the worker creates leaves the pod forgotten and without its own.
  */
  lemma RaceForgetsPod(setup: Setup, s: State, w: nat, rival: Secret) returns (steps: seq<Step>, last: State)
    requires Inv(setup, s) && w in s.jobs && s.jobs[w].phase.Missing? && rival.origin.Foreign?
    requires var p := s.jobs[w].phase.pod;
             Free(s, p) && SecretName(p) != "" && PodKey(p) !in s.queue && ConfigFor(setup, s.env, p).Ok?
    ensures var p := s.jobs[w].phase.pod;
            Runs(setup, s, steps, last) && Forgotten(last, PodKey(p)) && !Own(last, p) &&
            last.secrets == s.secrets[SecretKey(p) := rival]
  {
    hide ConfigFor, MakeSecret;
    var p := s.jobs[w].phase.pod;
    var s1 := Next(setup, s, CreateForeign(SecretKey(p), rival));
    var s2 := Next(setup, s1, BuildConfig(w));
    StepKeepsInv(setup, s, CreateForeign(SecretKey(p), rival));
    StepKeepsInv(setup, s1, BuildConfig(w));
    last := Next(setup, s2, CreateSecret(w));
    JobsHold(setup, s2);
    assert JobInv(setup, s2.versions, s2.jobs[w]);
    CreateSucceedsExactly(setup, s2, w);
    var tail := [CreateSecret(w)];
    assert tail[1..] == [];
    assert Runs(setup, s2, tail, last);
    var middle := [BuildConfig(w)] + tail;
    assert middle[1..] == tail;
    assert Runs(setup, s1, middle, last);
    steps := [CreateForeign(SecretKey(p), rival)] + middle;
    assert steps[1..] == middle;
  }
}
