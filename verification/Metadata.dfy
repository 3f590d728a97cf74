/** Annotation and label keys, and the selection of annotations by key prefix. */
module Metadata {
  import opened Text

  type Annotations = map<string, string>

  const PREFIX := "telegraf.influxdata.com"

  const ENV_LITERAL := PREFIX + "/env-literal-"
  const ENV_FIELD_REF := PREFIX + "/env-fieldref-"
  const ENV_SECRET_KEY_REF := PREFIX + "/env-secretkeyref-"
  const ENV_CONFIG_MAP_KEY_REF := PREFIX + "/env-configmapkeyref-"

  const CLASS := PREFIX + "/class"
  const METRICS_PORT := PREFIX + "/port"
  const METRICS_PORTS := PREFIX + "/ports"
  const METRICS_PATH := PREFIX + "/path"
  const METRICS_SCHEME := PREFIX + "/scheme"
  const METRIC_VERSION := PREFIX + "/metric-version"
  const NAMEPASS := PREFIX + "/namepass"
  const INTERVAL := PREFIX + "/interval"
  const RAW_INPUT := PREFIX + "/inputs"
  const RAW_AGGREGATORS := PREFIX + "/aggregators"
  const RAW_PROCESSORS := PREFIX + "/processors"
  const ENABLE_INTERNAL := PREFIX + "/internal"
  const GLOBAL_TAG_LITERAL := PREFIX + "/global-tag-literal-"

  const CONTROLLER_NAME := "telegraf-sidecar-operator"
  const SECRET_CREATED_BY := "app.kubernetes.io/created-by"
  const SECRET_MANAGED_BY := "app.kubernetes.io/managed-by"
  const SIDECAR_INJECTED := PREFIX + "/injected"
  const SIDECAR_SECRET_NAME := PREFIX + "/secret-name"
  const SECRET_CLASS_NAME := PREFIX + "/class"
  const SECRET_POD := PREFIX + "/pod"

  /** The annotations whose key starts with the prefix, under the rest of their key. */
  function WithPrefix(annotations: Annotations, prefix: string): (values: map<string, string>)
    ensures forall n :: n in values <==> prefix + n in annotations
    ensures forall n :: n in values ==> values[n] == annotations[prefix + n]
  {
    var names := set k | k in annotations && HasPrefix(k, prefix) :: k[|prefix|..];
    assert forall k :: HasPrefix(k, prefix) ==> k == prefix + k[|prefix|..];
    assert forall n :: HasPrefix(prefix + n, prefix) && (prefix + n)[|prefix|..] == n;
    map n | n in names :: annotations[prefix + n]
  }

  method GetAnnotationsWithPrefix(annotations: Annotations, prefix: string) returns (values: map<string, string>)
    ensures values == WithPrefix(annotations, prefix)
  {
    values := map[];
    var rest := annotations.Keys;
    while rest != {}
      invariant rest <= annotations.Keys
      invariant forall n :: n in values <==> prefix + n in annotations && prefix + n !in rest
      invariant forall n :: n in values ==> values[n] == annotations[prefix + n]
    {
      var k :| k in rest;
      rest := rest - {k};
      if HasPrefix(k, prefix) {
        assert k == prefix + k[|prefix|..];
        assert forall n :: prefix + n == k ==> n == k[|prefix|..] by {
          forall n | prefix + n == k ensures n == k[|prefix|..] {
            assert (prefix + n)[|prefix|..] == n;
          }
        }
        values := values[k[|prefix|..] := annotations[k]];
      } else {
        assert forall n :: HasPrefix(prefix + n, prefix);
      }
    }
  }

  /** Keys outside a prefix do not matter to its selection. */
  lemma PrefixIgnores(a: Annotations, b: Annotations, prefix: string, key: string)
    requires a - {key} == b - {key} && !HasPrefix(key, prefix)
    ensures WithPrefix(a, prefix) == WithPrefix(b, prefix)
  {
    forall n ensures (prefix + n in a <==> prefix + n in b) &&
                     (prefix + n in a ==> a[prefix + n] == b[prefix + n]) {
      assert HasPrefix(prefix + n, prefix);
      SameOutside(a, b, key, prefix + n);
    }
  }

  lemma SameOutside(a: Annotations, b: Annotations, key: string, k: string)
    requires a - {key} == b - {key} && k != key
    ensures k in a <==> k in b
    ensures k in a ==> a[k] == b[k]
  {
    assert k in a <==> k in a - {key};
    assert k in b <==> k in b - {key};
    if k in a {
      assert (a - {key})[k] == (b - {key})[k];
    }
  }
}
