/**
  The sidecar container's environment: three defaults, then one block of variables for each
  kind of environment annotation, each block in whatever order its map is ranged over.
*/
module Sidecar {
  import opened Text
  import opened Metadata
  import opened Objects

  datatype Kind = Literals | FieldRefs | SecretKeyRefs | ConfigMapKeyRefs

  function KindPrefix(kind: Kind): string {
    match kind
    case Literals => ENV_LITERAL
    case FieldRefs => ENV_FIELD_REF
    case SecretKeyRefs => ENV_SECRET_KEY_REF
    case ConfigMapKeyRefs => ENV_CONFIG_MAP_KEY_REF
  }

  const DEFAULT_ENV := [
    EnvVar("PODNAME", FieldRef("metadata.name")),
    EnvVar("NODENAME", FieldRef("spec.nodeName")),
    EnvVar("NAMESPACE", FieldRef("metadata.namespace"))
  ]

  /** strings.SplitN(value, ".", 2). */
  function SplitDot(value: string): seq<string> {
    var i := IndexOf(value, '.');
    if i == |value| then [value] else [value[..i], value[i + 1..]]
  }

  /** The variable one annotation asks for; a key reference without a dot asks for none. */
  function Var(kind: Kind, name: string, value: string): seq<EnvVar> {
    var selector := SplitDot(value);
    match kind
    case Literals => [EnvVar(name, Literal(value))]
    case FieldRefs => [EnvVar(name, FieldRef(value))]
    case SecretKeyRefs => if |selector| == 2 then [EnvVar(name, SecretKeyRef(selector[0], selector[1]))] else []
    case ConfigMapKeyRefs => if |selector| == 2 then [EnvVar(name, ConfigMapKeyRef(selector[0], selector[1]))] else []
  }

  /** The block holds the variable of each of the named annotations once, in some order. */
  ghost predicate Block(block: seq<EnvVar>, kind: Kind, values: map<string, string>, names: set<string>)
    requires names <= values.Keys
  {
    (forall i, j :: 0 <= i < j < |block| ==> block[i].name != block[j].name) &&
    (forall e :: e in block ==> e.name in names && Var(kind, e.name, values[e.name]) == [e]) &&
    (forall n :: n in names && Var(kind, n, values[n]) != [] ==> Var(kind, n, values[n])[0] in block)
  }

  lemma ExtendBlock(block: seq<EnvVar>, kind: Kind, values: map<string, string>, names: set<string>, name: string)
    requires names <= values.Keys && Block(block, kind, values, names) && name in values && name !in names
    ensures Block(block + Var(kind, name, values[name]), kind, values, names + {name})
  {
    VarKind(kind, name, values[name]);
    hide Var;
    var variable := Var(kind, name, values[name]);
    var more := block + variable;
    forall i, j | 0 <= i < j < |more| ensures more[i].name != more[j].name {
      assert more[j] in block || more[j] in variable;
      assert i < |block| ==> more[i] in block;
    }
    forall e | e in more ensures e.name in names + {name} && Var(kind, e.name, values[e.name]) == [e] {
      if e !in block {
        assert e in variable && variable == [e];
      }
    }
  }

  ghost predicate KindBlock(block: seq<EnvVar>, kind: Kind, a: Annotations) {
    var values := WithPrefix(a, KindPrefix(kind));
    Block(block, kind, values, values.Keys)
  }

  ghost predicate Blocks(l: seq<EnvVar>, f: seq<EnvVar>, s: seq<EnvVar>, c: seq<EnvVar>, a: Annotations) {
    KindBlock(l, Literals, a) && KindBlock(f, FieldRefs, a) && KindBlock(s, SecretKeyRefs, a) && KindBlock(c, ConfigMapKeyRefs, a)
  }

  /** What the sidecar's environment may be, over all iteration orders. */
  ghost predicate SidecarEnv(env: seq<EnvVar>, a: Annotations) {
    exists l, f, s, c :: Blocks(l, f, s, c, a) && env == DEFAULT_ENV + l + f + s + c
  }

  /** Startup settings whose quantities have to parse; "" and "0" stand for no CPU limit. */
  datatype Settings = Settings(
    secretNamePrefix: string, image: string,
    requestsCPU: string, requestsMemory: string, limitsCPU: string, limitsMemory: string)

  predicate QuantitiesParse(s: Settings, parses: string -> bool) {
    parses(s.requestsCPU) && parses(s.requestsMemory) &&
    (s.limitsCPU == "" || s.limitsCPU == "0" || parses(s.limitsCPU)) && parses(s.limitsMemory)
  }

  datatype ConfigError = BadQuantity(value: string)

  const CONTAINER_NAME := "telegraf"

  const IMAGE := PREFIX + "/image"

  class ContainerConfig {
    var image: string
    var env: seq<EnvVar>

    constructor (image: string)
      ensures this.image == image && env == DEFAULT_ENV
    {
      this.image := image;
      env := DEFAULT_ENV;
    }

    static method NewContainerConfig(s: Settings, parses: string -> bool)
      returns (c: ContainerConfig?, err: Option<ConfigError>)
      ensures c != null <==> err == None
      ensures c != null <==>
        parses(s.requestsCPU) && parses(s.requestsMemory) && parses(s.limitsMemory) &&
        (s.limitsCPU != "" && s.limitsCPU != "0" ==> parses(s.limitsCPU))
      ensures err.Some? ==> !parses(err.value.value)
      ensures c != null ==> fresh(c) && c.image == s.image && c.env == DEFAULT_ENV
    {
      c := new ContainerConfig(s.image);
      err := None;
      if !parses(s.requestsCPU) {
        return null, Some(BadQuantity(s.requestsCPU));
      }
      if !parses(s.requestsMemory) {
        return null, Some(BadQuantity(s.requestsMemory));
      }
      if s.limitsCPU != "" && s.limitsCPU != "0" {
        if !parses(s.limitsCPU) {
          return null, Some(BadQuantity(s.limitsCPU));
        }
      }
      if !parses(s.limitsMemory) {
        return null, Some(BadQuantity(s.limitsMemory));
      }
    }

    method ApplyAnnotationOverrides(annotations: Annotations)
      requires env == DEFAULT_ENV
      modifies this
      ensures SidecarEnv(env, annotations)
      ensures image == if IMAGE in annotations then annotations[IMAGE] else old(image)
    {
      if IMAGE in annotations {
        image := annotations[IMAGE];
      }
      var l := AppendVars(Literals, annotations);
      var f := AppendVars(FieldRefs, annotations);
      var s := AppendVars(SecretKeyRefs, annotations);
      var c := AppendVars(ConfigMapKeyRefs, annotations);
      assert Blocks(l, f, s, c, annotations);
    }

    /** One loop over the annotations of a kind, in any order, appending their variables. */
    method AppendVars(kind: Kind, annotations: Annotations) returns (ghost block: seq<EnvVar>)
      modifies `env
      ensures env == old(env) + block && KindBlock(block, kind, annotations)
    {
      hide KindPrefix, Var, WithPrefix;
      var values := GetAnnotationsWithPrefix(annotations, KindPrefix(kind));
      block := [];
      var rest := values.Keys;
      while rest != {}
        invariant rest <= values.Keys && env == old(env) + block
        invariant Block(block, kind, values, values.Keys - rest)
      {
        var name :| name in rest;
        var variable := BuildVar(kind, name, values[name]);
        ExtendBlock(block, kind, values, values.Keys - rest, name);
        assert values.Keys - rest + {name} == values.Keys - (rest - {name});
        rest := rest - {name};
        env := env + variable;
        block := block + variable;
      }
      assert values.Keys - rest == values.Keys;
    }

    static method BuildVar(kind: Kind, name: string, value: string) returns (variable: seq<EnvVar>)
      ensures variable == Var(kind, name, value)
    {
      variable := [];
      match kind {
        case Literals => variable := [EnvVar(name, Literal(value))];
        case FieldRefs => variable := [EnvVar(name, FieldRef(value))];
        case SecretKeyRefs =>
          var selector := SplitDot(value);
          if |selector| == 2 {
            variable := [EnvVar(name, SecretKeyRef(selector[0], selector[1]))];
          }
        case ConfigMapKeyRefs =>
          var selector := SplitDot(value);
          if |selector| == 2 {
            variable := [EnvVar(name, ConfigMapKeyRef(selector[0], selector[1]))];
          }
      }
    }

    method BuildContainerSpec(alwaysRestart: bool) returns (container: Container)
      ensures container == Container(CONTAINER_NAME, image, env, alwaysRestart)
    {
      container := Container(CONTAINER_NAME, image, env, alwaysRestart);
    }
  }

  // ------------------------------------------------------------- conservation

  function KindOf(source: EnvSource): Kind {
    match source
    case Literal(_) => Literals
    case FieldRef(_) => FieldRefs
    case SecretKeyRef(_, _) => SecretKeyRefs
    case ConfigMapKeyRef(_, _) => ConfigMapKeyRefs
  }

  /** The key of the annotation a variable comes from. */
  function Origin(e: EnvVar): string {
    KindPrefix(KindOf(e.source)) + e.name
  }

  lemma VarKind(kind: Kind, name: string, value: string)
    ensures |Var(kind, name, value)| <= 1
    ensures forall e :: e in Var(kind, name, value) ==> KindOf(e.source) == kind && e.name == name
  {
  }

  /** No key belongs to two kinds: the prefixes differ at the letter after "/env-". */
  lemma PrefixesDisjoint(k1: Kind, n1: string, k2: Kind, n2: string)
    requires KindPrefix(k1) + n1 == KindPrefix(k2) + n2
    ensures k1 == k2 && n1 == n2
  {
    var at := |PREFIX| + 5;
    assert (KindPrefix(k1) + n1)[at] == KindPrefix(k1)[at];
    assert (KindPrefix(k2) + n2)[at] == KindPrefix(k2)[at];
    KindLetter(k1);
    KindLetter(k2);
    assert k1 == k2;
    assert n1 == (KindPrefix(k1) + n1)[|KindPrefix(k1)|..];
  }

  lemma KindLetter(kind: Kind)
    ensures |KindPrefix(kind)| > |PREFIX| + 5
    ensures KindPrefix(kind)[|PREFIX| + 5] ==
      match kind case Literals => 'l' case FieldRefs => 'f' case SecretKeyRefs => 's' case ConfigMapKeyRefs => 'c'
  {
    assert ENV_LITERAL[|PREFIX| + 5] == "/env-literal-"[5];
    assert ENV_FIELD_REF[|PREFIX| + 5] == "/env-fieldref-"[5];
    assert ENV_SECRET_KEY_REF[|PREFIX| + 5] == "/env-secretkeyref-"[5];
    assert ENV_CONFIG_MAP_KEY_REF[|PREFIX| + 5] == "/env-configmapkeyref-"[5];
  }

  /** The annotation under this key asks for a variable that is kept. */
  ghost predicate Asks(a: Annotations, kind: Kind, name: string) {
    KindPrefix(kind) + name in a && Var(kind, name, a[KindPrefix(kind) + name]) != []
  }

  /** The variable comes from an annotation of its own kind. */
  ghost predicate HasOrigin(e: EnvVar, a: Annotations) {
    Origin(e) in a && Var(KindOf(e.source), e.name, a[Origin(e)]) == [e]
  }

  /** The variables of one block: each from its own annotation of that kind, none missing. */
  lemma BlockOrigins(block: seq<EnvVar>, kind: Kind, a: Annotations)
    requires KindBlock(block, kind, a)
    ensures forall e :: e in block ==> KindOf(e.source) == kind && HasOrigin(e, a)
    ensures forall i, j :: 0 <= i < j < |block| ==> block[i].name != block[j].name
    ensures forall n :: Asks(a, kind, n) ==> exists i :: 0 <= i < |block| && block[i].name == n
  {
    hide KindPrefix, Var;
    var values := WithPrefix(a, KindPrefix(kind));
    forall e | e in block ensures KindOf(e.source) == kind && HasOrigin(e, a) {
      VarKind(kind, e.name, values[e.name]);
      assert e in Var(kind, e.name, values[e.name]);
    }
    forall n | Asks(a, kind, n) ensures exists i :: 0 <= i < |block| && block[i].name == n {
      VarKind(kind, n, values[n]);
      assert Var(kind, n, values[n])[0] in block;
    }
  }

  /** Which block position i of the environment lies in, and how many variables precede that block. */
  function Region(i: nat, l: nat, f: nat, s: nat): (Kind, nat) {
    if i < 3 + l then (Literals, 3)
    else if i < 3 + l + f then (FieldRefs, 3 + l)
    else if i < 3 + l + f + s then (SecretKeyRefs, 3 + l + f)
    else (ConfigMapKeyRefs, 3 + l + f + s)
  }

  lemma VarAt(l: seq<EnvVar>, f: seq<EnvVar>, s: seq<EnvVar>, c: seq<EnvVar>, env: seq<EnvVar>, a: Annotations, i: nat)
    requires Blocks(l, f, s, c, a) && env == DEFAULT_ENV + l + f + s + c && 3 <= i < |env|
    ensures KindOf(env[i].source) == Region(i, |l|, |f|, |s|).0 && HasOrigin(env[i], a)
  {
    hide KindBlock, HasOrigin;
    BlockOrigins(l, Literals, a);
    BlockOrigins(f, FieldRefs, a);
    BlockOrigins(s, SecretKeyRefs, a);
    BlockOrigins(c, ConfigMapKeyRefs, a);
    var (kind, start) := Region(i, |l|, |f|, |s|);
    var block := match kind case Literals => l case FieldRefs => f case SecretKeyRefs => s case ConfigMapKeyRefs => c;
    assert env[i] == block[i - start] && block[i - start] in block;
  }

  lemma TwoVars(l: seq<EnvVar>, f: seq<EnvVar>, s: seq<EnvVar>, c: seq<EnvVar>, env: seq<EnvVar>, a: Annotations, i: nat, j: nat)
    requires Blocks(l, f, s, c, a) && env == DEFAULT_ENV + l + f + s + c && 3 <= i < j < |env|
    ensures Origin(env[i]) != Origin(env[j])
    ensures Rank(KindOf(env[i].source)) <= Rank(KindOf(env[j].source))
  {
    hide KindBlock, HasOrigin, KindPrefix;
    VarAt(l, f, s, c, env, a, i);
    VarAt(l, f, s, c, env, a, j);
    var (kind, start) := Region(i, |l|, |f|, |s|);
    if KindOf(env[j].source) == kind {
      var block := match kind case Literals => l case FieldRefs => f case SecretKeyRefs => s case ConfigMapKeyRefs => c;
      BlockOrigins(block, kind, a);
      assert env[i] == block[i - start] && env[j] == block[j - start];
    }
    if Origin(env[i]) == Origin(env[j]) {
      PrefixesDisjoint(KindOf(env[i].source), env[i].name, KindOf(env[j].source), env[j].name);
    }
  }

  lemma AskIsMet(l: seq<EnvVar>, f: seq<EnvVar>, s: seq<EnvVar>, c: seq<EnvVar>, env: seq<EnvVar>, a: Annotations, kind: Kind, n: string)
    requires Blocks(l, f, s, c, a) && env == DEFAULT_ENV + l + f + s + c && Asks(a, kind, n)
    ensures exists i :: 3 <= i < |env| && Origin(env[i]) == KindPrefix(kind) + n
  {
    hide KindPrefix, Var, KindBlock;
    var block := match kind case Literals => l case FieldRefs => f case SecretKeyRefs => s case ConfigMapKeyRefs => c;
    var start := 3 + match kind
                     case Literals => 0
                     case FieldRefs => |l|
                     case SecretKeyRefs => |l| + |f|
                     case ConfigMapKeyRefs => |l| + |f| + |s|;
    BlockOrigins(block, kind, a);
    var i :| 0 <= i < |block| && block[i].name == n;
    assert env[start + i] == block[i] && block[i] in block;
  }

  /**
    The variable is what some annotation writes: a literal its value, a field reference the path,
    a reference to a key of a secret or config map the dot-free name and the key around the first dot.
  */
  predicate Written(e: EnvVar, a: Annotations) {
    match e.source
    case Literal(value) => ENV_LITERAL + e.name in a && a[ENV_LITERAL + e.name] == value
    case FieldRef(path) => ENV_FIELD_REF + e.name in a && a[ENV_FIELD_REF + e.name] == path
    case SecretKeyRef(secret, key) =>
      ENV_SECRET_KEY_REF + e.name in a && a[ENV_SECRET_KEY_REF + e.name] == secret + "." + key && '.' !in secret
    case ConfigMapKeyRef(configMap, key) =>
      ENV_CONFIG_MAP_KEY_REF + e.name in a && a[ENV_CONFIG_MAP_KEY_REF + e.name] == configMap + "." + key && '.' !in configMap
  }

  lemma SplitDotMeaning(value: string, name: string, key: string)
    ensures SplitDot(value) == [name, key] <==> value == name + "." + key && '.' !in name
  {
    var i := IndexOf(value, '.');
    if i < |value| {
      assert value == value[..i] + "." + value[i + 1..];
    }
    if value == name + "." + key && '.' !in name {
      assert value[|name|] == '.';
      assert forall k :: 0 <= k < |name| ==> value[k] == name[k];
      assert i == |name|;
      assert value[..i] == name && value[i + 1..] == key;
    }
  }

  /** What the loops build for an annotation is exactly what it writes. */
  lemma WrittenIsBuilt(e: EnvVar, a: Annotations)
    ensures Written(e, a) <==> HasOrigin(e, a)
  {
    match e.source {
      case SecretKeyRef(secret, key) =>
        if Origin(e) in a {
          SplitDotMeaning(a[Origin(e)], secret, key);
        }
      case ConfigMapKeyRef(configMap, key) =>
        if Origin(e) in a {
          SplitDotMeaning(a[Origin(e)], configMap, key);
        }
      case _ =>
    }
  }

  /**
    The environment, for every iteration order: the three defaults, and then every variable that
    some annotation writes, each exactly once, and nothing else. The kinds follow one another in a
    fixed order, and no two variables come from one annotation.
  */
  lemma EnvConserved(env: seq<EnvVar>, a: Annotations)
    requires SidecarEnv(env, a)
    ensures |env| >= 3 && env[0] == EnvVar("PODNAME", FieldRef("metadata.name")) &&
            env[1] == EnvVar("NODENAME", FieldRef("spec.nodeName")) && env[2] == EnvVar("NAMESPACE", FieldRef("metadata.namespace"))
    ensures forall i :: 3 <= i < |env| ==> Written(env[i], a)
    ensures forall e :: Written(e, a) ==> exists i :: 3 <= i < |env| && env[i] == e
    ensures forall i, j :: 3 <= i < j < |env| ==>
      env[i] != env[j] && Origin(env[i]) != Origin(env[j]) && Rank(KindOf(env[i].source)) <= Rank(KindOf(env[j].source))
  {
    hide KindPrefix, Var, HasOrigin, Blocks, Written;
    var l, f, s, c :| Blocks(l, f, s, c, a) && env == DEFAULT_ENV + l + f + s + c;
    forall i | 3 <= i < |env| ensures Written(env[i], a) {
      VarAt(l, f, s, c, env, a, i);
      WrittenIsBuilt(env[i], a);
    }
    forall i, j | 3 <= i < j < |env|
      ensures Origin(env[i]) != Origin(env[j]) && Rank(KindOf(env[i].source)) <= Rank(KindOf(env[j].source)) {
      TwoVars(l, f, s, c, env, a, i, j);
    }
    forall e | Written(e, a) ensures exists i :: 3 <= i < |env| && env[i] == e {
      WrittenIsBuilt(e, a);
      BuiltIsServed(l, f, s, c, env, a, e);
    }
  }

  lemma BuiltIsServed(l: seq<EnvVar>, f: seq<EnvVar>, s: seq<EnvVar>, c: seq<EnvVar>, env: seq<EnvVar>, a: Annotations, e: EnvVar)
    requires Blocks(l, f, s, c, a) && env == DEFAULT_ENV + l + f + s + c && HasOrigin(e, a)
    ensures exists i :: 3 <= i < |env| && env[i] == e
  {
    hide KindPrefix, Var, Blocks;
    assert Asks(a, KindOf(e.source), e.name);
    AskIsMet(l, f, s, c, env, a, KindOf(e.source), e.name);
    var i :| 3 <= i < |env| && Origin(env[i]) == KindPrefix(KindOf(e.source)) + e.name;
    VarAt(l, f, s, c, env, a, i);
    PrefixesDisjoint(KindOf(env[i].source), env[i].name, KindOf(e.source), e.name);
  }

  function Rank(kind: Kind): nat {
    match kind
    case Literals => 0
    case FieldRefs => 1
    case SecretKeyRefs => 2
    case ConfigMapKeyRefs => 3
  }

  /** A key reference is kept exactly when it has a dot, and is cut at the first one. */
  lemma KeyRefsCutAtFirstDot(kind: Kind, name: string, value: string)
    requires kind == SecretKeyRefs || kind == ConfigMapKeyRefs
    ensures Var(kind, name, value) != [] <==> '.' in value
    ensures forall e :: e in Var(kind, name, value) ==>
      var target := if kind == SecretKeyRefs then e.source.secret else e.source.configMap;
      target + "." + e.source.key == value && '.' !in target
  {
    var i := IndexOf(value, '.');
    if i < |value| {
      assert value == value[..i] + "." + value[i + 1..];
    }
  }
}
