/** The admission webhook: which pods get the sidecar, and what changes in them. */
module Injector {
  import opened Text
  import opened Metadata
  import opened Objects
  import opened Sidecar
  import FeatureGate

  datatype InjectError = NotAPod | BadConfig(error: ConfigError)

  const CONFIG_VOLUME := "telegraf-config"

  // ------------------------------------------------------------ secret names

  /** The part of a secret name before the random characters. */
  function NameBase(prefix: string, podIdentifier: string): string {
    prefix + "-" + TrimSuffix(podIdentifier, "-") + "-"
  }

  /** The library's name generator: cut to 58 characters, then five random ones. */
  function GenerateName(base: string, suffix: string): string {
    (if |base| > 58 then base[..58] else base) + suffix
  }

  function GenerateSecretName(prefix: string, podIdentifier: string, suffix: string): string {
    var name := NameBase(prefix, podIdentifier);
    GenerateName(if |name| > 57 then name[..57] + "-" else name, suffix)
  }

  predicate LabelChar(c: char) {
    'a' <= c <= 'z' || '0' <= c <= '9' || c == '-'
  }

  predicate AlphaNumeric(c: char) {
    LabelChar(c) && c != '-'
  }

  predicate LabelChars(s: string) {
    forall i :: 0 <= i < |s| ==> LabelChar(s[i])
  }

  /** A label in the sense of section 2.1 of RFC 1123, in lower case. */
  predicate IsLabel(s: string) {
    1 <= |s| <= 63 && LabelChars(s) && AlphaNumeric(s[0]) && AlphaNumeric(s[|s| - 1])
  }

  predicate RandomSuffix(s: string) {
    |s| == 5 && forall i :: 0 <= i < 5 ==> AlphaNumeric(s[i])
  }

  /** The name never exceeds 63 characters, and ends in a dash and the random part. */
  lemma SecretNameLength(prefix: string, podIdentifier: string, suffix: string)
    requires RandomSuffix(suffix)
    ensures var name := GenerateSecretName(prefix, podIdentifier, suffix);
            var base := NameBase(prefix, podIdentifier);
            |name| == (if |base| < 58 then |base| else 58) + 5 && |name| <= 63 &&
            name[|name| - 5..] == suffix && name[|name| - 6] == '-' &&
            (|base| <= 57 ==> name == base + suffix) && (|base| > 57 ==> name[..57] == base[..57])
  {
    var base := NameBase(prefix, podIdentifier);
    if |base| > 57 {
      assert |base[..57] + "-"| == 58;
      assert (base[..57] + "-" + suffix)[..57] == base[..57];
    }
  }

  /** The name is a label exactly when what is kept of the base has only label characters and starts with a letter or digit. */
  lemma SecretNameIsLabel(prefix: string, podIdentifier: string, suffix: string)
    requires RandomSuffix(suffix)
    ensures var base := NameBase(prefix, podIdentifier);
            var kept := if |base| > 57 then base[..57] else base;
            IsLabel(GenerateSecretName(prefix, podIdentifier, suffix)) <==> LabelChars(kept) && AlphaNumeric(kept[0])
  {
    var name := GenerateSecretName(prefix, podIdentifier, suffix);
    var base := NameBase(prefix, podIdentifier);
    var kept := if |base| > 57 then base[..57] else base;
    SecretNameLength(prefix, podIdentifier, suffix);
    hide GenerateSecretName, NameBase;
    assert forall i :: 0 <= i < |kept| ==> name[i] == kept[i];
    assert forall i :: 0 <= i < 5 ==> name[|name| - 5 + i] == suffix[i];
    if LabelChars(kept) {
      forall i | 0 <= i < |name| ensures LabelChar(name[i]) {
        if |kept| < i {
          assert name[i] == suffix[i - (|name| - 5)];
        }
      }
    }
  }

  /** A label for a prefix and an identifier of label characters always give a label. */
  lemma PlainIdentifierGivesLabel(prefix: string, podIdentifier: string, suffix: string)
    requires RandomSuffix(suffix) && IsLabel(prefix) && LabelChars(podIdentifier)
    ensures IsLabel(GenerateSecretName(prefix, podIdentifier, suffix))
  {
    SecretNameIsLabel(prefix, podIdentifier, suffix);
  }

  /** A dot in a pod's name reaches the secret's name, which then is no label. */
  lemma DottedNameIsNoLabel()
    ensures GenerateSecretName("telegraf-config", "web.0", "abc12") == "telegraf-config-web.0-abc12"
    ensures !IsLabel(GenerateSecretName("telegraf-config", "web.0", "abc12"))
  {
    var name := "telegraf-config-web.0-abc12";
    assert TrimSuffix("web.0", "-") == "web.0";
    assert NameBase("telegraf-config", "web.0") + "abc12" == name;
    assert name[19] == '.';
  }

  // --------------------------------------------------------------- admission

  predicate NamedTelegraf(containers: seq<Container>) {
    exists c :: c in containers && Contains(c.name, "telegraf")
  }

  /** The containers the gate makes the webhook look at. */
  function Watched(p: Pod, native: bool): seq<Container> {
    if native then p.initContainers else p.containers
  }

  predicate HasTelegraf(p: Pod, native: bool) {
    NamedTelegraf(Watched(p, native))
  }

  predicate Annotated(p: Pod) {
    exists key :: key in p.annotations && HasPrefix(key, PREFIX)
  }

  predicate ShouldInject(p: Pod, native: bool) {
    !HasTelegraf(p, native) && Annotated(p)
  }

  function Identifier(p: Pod): string {
    if p.name == "" then p.generateName else p.name
  }

  /** The pod with the container and its volume appended and the two labels set. */
  function Injected(p: Pod, container: Container, native: bool, secretName: string): Pod {
    p.(initContainers := if native then p.initContainers + [container] else p.initContainers,
       containers := if native then p.containers else p.containers + [container],
       volumes := p.volumes + [Volume(CONFIG_VOLUME, Some(secretName))],
       labels := p.labels[SIDECAR_INJECTED := "true"][SIDECAR_SECRET_NAME := secretName])
  }

  /** The containers the settings and the pod's annotations stand for. */
  ghost predicate IsSidecar(c: Container, s: Settings, p: Pod, native: bool) {
    c.name == CONTAINER_NAME && c.alwaysRestart == native && SidecarEnv(c.env, p.annotations) &&
    c.image == if IMAGE in p.annotations then p.annotations[IMAGE] else s.image
  }

  /** One admission of p, ending in q: all or nothing. */
  ghost predicate Admits(p: Pod, q: Pod, s: Settings, native: bool, suffix: string, parses: string -> bool, err: Option<InjectError>) {
    if !ShouldInject(p, native) then q == p && err == None
    else if !QuantitiesParse(s, parses) then q == p && err.Some?
    else
      err == None &&
      exists c :: IsSidecar(c, s, p, native) &&
                  q == Injected(p, c, native, GenerateSecretName(s.secretNamePrefix, Identifier(p), suffix))
  }

  /** A pod being admitted; only what the webhook may write is mutable. */
  class PodObject {
    const fixed: Pod
    var labels: map<string, string>
    var initContainers: seq<Container>
    var containers: seq<Container>
    var volumes: seq<Volume>

    constructor (pod: Pod)
      ensures fixed == pod && View() == pod
    {
      fixed, labels, initContainers := pod, pod.labels, pod.initContainers;
      containers, volumes := pod.containers, pod.volumes;
    }

    function View(): Pod
      reads this
    {
      fixed.(labels := labels, initContainers := initContainers, containers := containers, volumes := volumes)
    }
  }

  class SidecarInjector {
    const settings: Settings
    const parses: string -> bool
    const nativeSidecars: FeatureGate.Gate

    constructor (settings: Settings, parses: string -> bool, nativeSidecars: FeatureGate.Gate)
      ensures this.settings == settings && this.parses == parses && this.nativeSidecars == nativeSidecars
    {
      this.settings, this.parses, this.nativeSidecars := settings, parses, nativeSidecars;
    }

    method Default(pod: PodObject?, suffix: string) returns (err: Option<InjectError>)
      modifies pod
      ensures pod == null ==> err == Some(NotAPod)
      ensures pod != null ==> Admits(old(pod.View()), pod.View(), settings, nativeSidecars.enabled, suffix, parses, err)
    {
      if pod == null {
        return Some(NotAPod);
      }
      ghost var before := pod.View();
      var podIdentifier := pod.fixed.name;
      if podIdentifier == "" {
        podIdentifier := pod.fixed.generateName;
      }
      var inject := ShouldInjectContainer(pod);
      if !inject {
        return None;
      }
      var config, bad := ContainerConfig.NewContainerConfig(settings, parses);
      if bad.Some? {
        return Some(BadConfig(bad.value));
      }
      config.ApplyAnnotationOverrides(pod.fixed.annotations);
      var container := config.BuildContainerSpec(nativeSidecars.enabled);
      if nativeSidecars.enabled {
        pod.initContainers := pod.initContainers + [container];
      } else {
        pod.containers := pod.containers + [container];
      }
      var secretName := GenerateSecretName(settings.secretNamePrefix, podIdentifier, suffix);
      pod.volumes := pod.volumes + [Volume(CONFIG_VOLUME, Some(secretName))];
      pod.labels := pod.labels[SIDECAR_INJECTED := "true"];
      pod.labels := pod.labels[SIDECAR_SECRET_NAME := secretName];
      assert IsSidecar(container, settings, before, nativeSidecars.enabled);
      assert pod.View() == Injected(before, container, nativeSidecars.enabled, secretName);
      return None;
    }

    method ShouldInjectContainer(pod: PodObject) returns (r: bool)
      ensures r == ShouldInject(pod.View(), nativeSidecars.enabled)
    {
      var has := HasTelegrafContainer(pod);
      if has {
        return false;
      }
      var rest := pod.fixed.annotations.Keys;
      while rest != {}
        invariant rest <= pod.fixed.annotations.Keys
        invariant forall key :: key in pod.fixed.annotations && key !in rest ==> !HasPrefix(key, PREFIX)
      {
        var key :| key in rest;
        if HasPrefix(key, PREFIX) {
          return true;
        }
        rest := rest - {key};
      }
      return false;
    }

    method HasTelegrafContainer(pod: PodObject) returns (r: bool)
      ensures r == HasTelegraf(pod.View(), nativeSidecars.enabled)
    {
      hide Contains;
      var containers := if nativeSidecars.enabled then pod.initContainers else pod.containers;
      for i := 0 to |containers|
        invariant forall c :: c in containers[..i] ==> !Contains(c.name, "telegraf")
      {
        if Contains(containers[i].name, "telegraf") {
          assert containers[i] in Watched(pod.View(), nativeSidecars.enabled);
          return true;
        }
      }
      assert containers[..|containers|] == containers;
      return false;
    }
  }

  // ------------------------------------------------------------------ results

  lemma SidecarIsTelegraf(containers: seq<Container>, c: Container)
    requires c.name == CONTAINER_NAME
    ensures NamedTelegraf(containers + [c])
  {
    assert HasPrefix(c.name[0..], "telegraf");
    assert c in containers + [c];
  }

  /** Whether an admission changed the pod by injecting. */
  ghost predicate Injects(p: Pod, s: Settings, native: bool, parses: string -> bool) {
    ShouldInject(p, native) && QuantitiesParse(s, parses)
  }

  /**
    What one admission does: nothing at all, with or without an error, or it appends a telegraf
    container to the list the gate selects and one volume, and nothing else is reordered or lost.
    The volume's secret and the label then carry one name.
  */
  lemma AdmissionAppends(p: Pod, q: Pod, s: Settings, native: bool, suffix: string, parses: string -> bool, err: Option<InjectError>)
    requires Admits(p, q, s, native, suffix, parses, err)
    ensures !Injects(p, s, native, parses) <==> q == p
    ensures err != None ==> q == p
    ensures q.annotations == p.annotations && PodKey(q) == PodKey(p) && q.uid == p.uid
    ensures p.containers <= q.containers && p.initContainers <= q.initContainers && p.volumes <= q.volumes
    ensures q != p ==>
      HasTelegraf(q, native) && Watched(q, !native) == Watched(p, !native) &&
      |Watched(q, native)| == |Watched(p, native)| + 1 && |q.volumes| == |p.volumes| + 1 &&
      SIDECAR_INJECTED in q.labels && q.labels[SIDECAR_INJECTED] == "true" && SIDECAR_SECRET_NAME in q.labels &&
      q.volumes[|p.volumes|] == Volume(CONFIG_VOLUME, Some(q.labels[SIDECAR_SECRET_NAME])) &&
      forall k :: k != SIDECAR_INJECTED && k != SIDECAR_SECRET_NAME ==>
        (k in q.labels <==> k in p.labels) && (k in p.labels ==> q.labels[k] == p.labels[k])
  {
    hide GenerateSecretName, Contains, SidecarEnv, HasPrefix;
    if Injects(p, s, native, parses) {
      var name := GenerateSecretName(s.secretNamePrefix, Identifier(p), suffix);
      var c :| IsSidecar(c, s, p, native) && q == Injected(p, c, native, name);
      SidecarIsTelegraf(Watched(p, native), c);
      assert |q.volumes| != |p.volumes|;
      LabelKeysDiffer();
    }
  }

  /** The word stands somewhere in the name. */
  ghost predicate SaysTelegraf(name: string) {
    exists x, y :: name == x + "telegraf" + y
  }

  /** No watched container says telegraf, and some annotation key starts with the operator's domain. */
  ghost predicate Wants(p: Pod, native: bool) {
    (forall c :: c in (if native then p.initContainers else p.containers) ==> !SaysTelegraf(c.name)) &&
    exists rest :: "telegraf.influxdata.com" + rest in p.annotations
  }

  /**
    The secret's name: the prefix and the pod's name, or its generateName when it has none yet,
    without one trailing dash; cut so that 57 characters and a dash are left; then the random part.
  */
  predicate NamedFor(secretName: string, p: Pod, prefix: string, suffix: string) {
    var id := if p.name != "" then p.name else p.generateName;
    var stem := if id != "" && id[|id| - 1] == '-' then id[..|id| - 1] else id;
    var base := prefix + "-" + stem + "-";
    secretName == (if |base| <= 57 then base else base[..57] + "-") + suffix
  }

  lemma NameIsForPod(p: Pod, prefix: string, suffix: string)
    ensures NamedFor(GenerateSecretName(prefix, Identifier(p), suffix), p, prefix, suffix)
  {
    var id := Identifier(p);
    assert id != "" ==> (id[|id| - 1..] == "-" <==> id[|id| - 1] == '-');
  }

  lemma InjectionIsWanted(p: Pod, native: bool)
    ensures ShouldInject(p, native) <==> Wants(p, native)
  {
    forall c: Container ensures Contains(c.name, "telegraf") <==> SaysTelegraf(c.name) {
      ContainsMeaning(c.name, "telegraf");
    }
    hide Contains, SaysTelegraf;
    assert PREFIX == "telegraf.influxdata.com";
    if Annotated(p) {
      var key :| key in p.annotations && HasPrefix(key, PREFIX);
      assert key == PREFIX + key[|PREFIX|..];
    }
    forall rest | PREFIX + rest in p.annotations ensures Annotated(p) {
      assert HasPrefix(PREFIX + rest, PREFIX);
    }
  }

  /**
    What an admission is, with nothing left to the webhook's own functions: when it injects, when
    it fails, which container it appends, and which secret name it gives.
  */
  lemma AdmissionExactly(p: Pod, q: Pod, s: Settings, native: bool, suffix: string, parses: string -> bool, err: Option<InjectError>)
    requires Admits(p, q, s, native, suffix, parses, err)
    ensures var quantities := parses(s.requestsCPU) && parses(s.requestsMemory) && parses(s.limitsMemory) &&
                              (s.limitsCPU == "" || s.limitsCPU == "0" || parses(s.limitsCPU));
            (err.Some? <==> Wants(p, native) && !quantities) && (q != p <==> Wants(p, native) && quantities)
    ensures q != p ==>
      exists c: Container, name :: NamedFor(name, p, s.secretNamePrefix, suffix) &&
        c.name == "telegraf" && c.alwaysRestart == native && SidecarEnv(c.env, p.annotations) &&
        (c.image == if IMAGE in p.annotations then p.annotations[IMAGE] else s.image) &&
        q == p.(initContainers := if native then p.initContainers + [c] else p.initContainers,
                containers := if native then p.containers else p.containers + [c],
                volumes := p.volumes + [Volume("telegraf-config", Some(name))],
                labels := p.labels[SIDECAR_INJECTED := "true"][SIDECAR_SECRET_NAME := name])
  {
    InjectionIsWanted(p, native);
    hide ShouldInject, Wants, SidecarEnv, GenerateSecretName, NamedFor;
    if ShouldInject(p, native) && QuantitiesParse(s, parses) {
      var name := GenerateSecretName(s.secretNamePrefix, Identifier(p), suffix);
      var c :| IsSidecar(c, s, p, native) && q == Injected(p, c, native, name);
      NameIsForPod(p, s.secretNamePrefix, suffix);
      assert |q.volumes| == |p.volumes| + 1;
    }
  }

  lemma LabelKeysDiffer()
    ensures SIDECAR_INJECTED != SIDECAR_SECRET_NAME
  {
    assert SIDECAR_INJECTED[|PREFIX| + 1] == "/injected"[1];
    assert SIDECAR_SECRET_NAME[|PREFIX| + 1] == "/secret-name"[1];
  }

  /** One event in the life of a pod: an admission with any settings, or an edit by somebody else. */
  datatype Event = Admission(settings: Settings, suffix: string) | Edit

  /** Edits are arbitrary, except that they leave a telegraf container the webhook sees in place. */
  ghost predicate Happens(p: Pod, e: Event, q: Pod, native: bool, parses: string -> bool) {
    match e
    case Admission(s, suffix) => exists err :: Admits(p, q, s, native, suffix, parses, err)
    case Edit => HasTelegraf(p, native) ==> HasTelegraf(q, native)
  }

  ghost predicate Life(pods: seq<Pod>, events: seq<Event>, native: bool, parses: string -> bool) {
    |pods| == |events| + 1 && forall i :: 0 <= i < |events| ==> Happens(pods[i], events[i], pods[i + 1], native, parses)
  }

  ghost predicate InjectionAt(pods: seq<Pod>, events: seq<Event>, i: nat, native: bool, parses: string -> bool)
    requires i < |pods| && i < |events|
  {
    events[i].Admission? && Injects(pods[i], events[i].settings, native, parses)
  }

  lemma {:induction false} ContainerStays(pods: seq<Pod>, events: seq<Event>, native: bool, parses: string -> bool, i: nat, j: nat)
    requires Life(pods, events, native, parses) && i <= j < |pods| && HasTelegraf(pods[i], native)
    ensures HasTelegraf(pods[j], native)
    decreases j - i
  {
    if i < j {
      assert Happens(pods[i], events[i], pods[i + 1], native, parses);
      ContainerStays(pods, events, native, parses, i + 1, j);
    }
  }

  /** With the gate fixed, however often a pod is admitted, the sidecar is injected at most once. */
  lemma InjectsAtMostOnce(pods: seq<Pod>, events: seq<Event>, native: bool, parses: string -> bool, i: nat, j: nat)
    requires Life(pods, events, native, parses) && i < |events| && j < |events|
    requires InjectionAt(pods, events, i, native, parses) && InjectionAt(pods, events, j, native, parses)
    ensures i == j
  {
    if i < j {
      AfterInjection(pods, events, native, parses, i);
      ContainerStays(pods, events, native, parses, i + 1, j);
    } else if j < i {
      AfterInjection(pods, events, native, parses, j);
      ContainerStays(pods, events, native, parses, j + 1, i);
    }
  }

  lemma AfterInjection(pods: seq<Pod>, events: seq<Event>, native: bool, parses: string -> bool, i: nat)
    requires Life(pods, events, native, parses) && i < |events| && InjectionAt(pods, events, i, native, parses)
    ensures HasTelegraf(pods[i + 1], native)
  {
    assert Happens(pods[i], events[i], pods[i + 1], native, parses);
    var err :| Admits(pods[i], pods[i + 1], events[i].settings, native, events[i].suffix, parses, err);
    AdmissionAppends(pods[i], pods[i + 1], events[i].settings, native, events[i].suffix, parses, err);
  }

  /**
    The gate has to stay fixed: an injected pod is injected again, exactly when the gate has
    been flipped and the other list holds no telegraf container. The pod then has two volumes
    of the same name.
  */
  lemma FlippedGateInjectsAgain(p: Pod, q: Pod, s: Settings, before: bool, suffix: string, parses: string -> bool,
                                err: Option<InjectError>, now: bool)
    requires Admits(p, q, s, before, suffix, parses, err) && q != p
    ensures ShouldInject(q, now) <==> now != before && !HasTelegraf(p, now)
    ensures forall r, suffix', err' :: Admits(q, r, s, now, suffix', parses, err') && r != q ==>
      |r.volumes| == |p.volumes| + 2 &&
      r.volumes[|p.volumes|].name == CONFIG_VOLUME && r.volumes[|p.volumes| + 1].name == CONFIG_VOLUME
  {
    AdmissionAppends(p, q, s, before, suffix, parses, err);
    assert Annotated(q);
    forall r, suffix', err' | Admits(q, r, s, now, suffix', parses, err') && r != q
      ensures |r.volumes| == |p.volumes| + 2 &&
              r.volumes[|p.volumes|].name == CONFIG_VOLUME && r.volumes[|p.volumes| + 1].name == CONFIG_VOLUME {
      AdmissionAppends(q, r, s, now, suffix', parses, err');
      assert r.volumes[|p.volumes|] == q.volumes[|p.volumes|];
    }
  }

  /** Injecting a pod whose annotations ask for no variable and no image. */
  lemma PlainInjection(p: Pod, s: Settings, native: bool, suffix: string, parses: string -> bool) returns (q: Pod)
    requires Injects(p, s, native, parses) && SidecarEnv(DEFAULT_ENV, p.annotations) && IMAGE !in p.annotations
    ensures Admits(p, q, s, native, suffix, parses, None)
    ensures exists name :: q == Injected(p, Container(CONTAINER_NAME, s.image, DEFAULT_ENV, native), native, name)
  {
    hide GenerateSecretName, SidecarEnv, ShouldInject, QuantitiesParse;
    var c, name := Container(CONTAINER_NAME, s.image, DEFAULT_ENV, native), GenerateSecretName(s.secretNamePrefix, Identifier(p), suffix);
    q := Injected(p, c, native, name);
    assert IsSidecar(c, s, p, native);
  }

  /** A pod with one annotation, admitted before and after the gate is turned on, has the sidecar twice. */
  lemma InjectedTwice(s: Settings, parses: string -> bool) returns (p: Pod, q: Pod, r: Pod)
    requires QuantitiesParse(s, parses)
    ensures p == Pod("default", "web", "", 1, map[], map[CLASS := "app"], [], [], [])
    ensures Admits(p, q, s, false, "abc12", parses, None) && Admits(q, r, s, true, "xyz34", parses, None)
    ensures |r.containers| == 1 && |r.initContainers| == 1 && r.containers[0].name == r.initContainers[0].name == CONTAINER_NAME
    ensures |r.volumes| == 2 && r.volumes[0].name == r.volumes[1].name == CONFIG_VOLUME
  {
    p := Pod("default", "web", "", 1, map[], map[CLASS := "app"], [], [], []);
    ClassAsksForNothing(p.annotations);
    ClassAlone(p);
    hide Admits, HasPrefix, SidecarEnv, Contains, QuantitiesParse;
    q := PlainInjection(p, s, false, "abc12", parses);
    ClassAlone(q);
    r := PlainInjection(q, s, true, "xyz34", parses);
  }

  lemma ClassAlone(p: Pod)
    requires p.annotations.Keys == {CLASS}
    ensures Annotated(p) && IMAGE !in p.annotations
  {
    assert HasPrefix(CLASS, PREFIX);
    assert IMAGE[|PREFIX| + 1] == "/image"[1] && CLASS[|PREFIX| + 1] == "/class"[1];
  }

  lemma ClassAsksForNothing(a: Annotations)
    requires a.Keys == {CLASS}
    ensures SidecarEnv(DEFAULT_ENV, a)
  {
    forall kind ensures KindBlock([], kind, a) {
      forall n ensures KindPrefix(kind) + n != CLASS {
        assert |KindPrefix(kind)| > |PREFIX| + 1 by {
          KindStart(kind);
        }
        assert (KindPrefix(kind) + n)[|PREFIX| + 1] == KindPrefix(kind)[|PREFIX| + 1];
        KindStart(kind);
        assert CLASS[|PREFIX| + 1] == "/class"[1];
      }
      assert WithPrefix(a, KindPrefix(kind)) == map[];
    }
    assert Blocks([], [], [], [], a);
    assert DEFAULT_ENV + [] + [] + [] + [] == DEFAULT_ENV;
  }

  lemma KindStart(kind: Kind)
    ensures |KindPrefix(kind)| > |PREFIX| + 1 && KindPrefix(kind)[|PREFIX| + 1] == 'e'
  {
    assert ENV_LITERAL[|PREFIX| + 1] == "/env-literal-"[1];
    assert ENV_FIELD_REF[|PREFIX| + 1] == "/env-fieldref-"[1];
    assert ENV_SECRET_KEY_REF[|PREFIX| + 1] == "/env-secretkeyref-"[1];
    assert ENV_CONFIG_MAP_KEY_REF[|PREFIX| + 1] == "/env-configmapkeyref-"[1];
  }
}
