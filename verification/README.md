# The telegraf sidecar operator, modelled and proved in Dafny

The operator has two halves that talk through a pod's labels. An admission webhook adds a
telegraf container, a volume and a secret name to annotated pods. A controller then reads the
pod, turns its annotations into a telegraf configuration over a class file, and creates the
secret of that name. Two pieces of shared state stand behind them: the class data, which can be
reloaded at any time, and the feature gates, set from a command-line flag.

`dafny verify dfyconfig.toml` verifies the project. The modules follow the program:

| module | content |
|---|---|
| `Text`, `Metadata`, `Objects` | string operations, annotation keys, the parts of pods that matter |
| `FeatureGate`, `Flag` | the gate registry; the printer and parser of its text form |
| `ClassData`, `ClassDataRuns` | the class store used alone; the same store under interleaved updates and lookups |
| `Telegraf`, `TelegrafProperties` | annotations to configuration; what that path promises |
| `Sidecar`, `Injector` | the sidecar's environment; the webhook and its secret names |
| `Protocol`, `ProtocolSafety`, `Convergence` | the controller as a step system of four workers, pods, secrets, a garbage collector and third parties |
| `Reconciler` | the controller's methods, that one undisturbed call is a run of the step system, and what the label-filtered cache changes |

Code that updates state is written as methods and classes proved against functions; the main
results are lemmas about those functions and about all runs of the two step systems. What an
operation means to its user is stated once more without those functions, as a relation between
texts, annotations, maps or stores: `TelegrafProperties.Describes`, `Flag.Sets`, `Sidecar.Written`,
`Injector.AdmissionExactly`, `ProtocolSafety.TrueTo`, `Reconciler.AloneMeaning`; a lemma or the
method itself ties the two together. Maps are
ranged over in an order nothing is assumed about. The TOML, duration and quantity libraries
are function values about which nothing is assumed either; in particular the parser that
validates class data and the one that builds configurations are unrelated, so valid class
data does not imply that building succeeds.

The step system of the controller lets reads lag arbitrarily: a pod read answers with any
version that ever existed under its key or with nothing, a secret read with anything. A `Wake`
step may put any key into the queue, a requeue and an error put it back, and the queue gives a
key to one worker at a time. UIDs are not reused. `Convergence` follows one
pod and assumes (`Convergence.Undisturbed`) that its own worker's reads are fresh and free of API
errors, that nobody edits the pod or writes under its secret's name, that no other pod carries that
name, and that its configuration keeps building; everything else stays free.

## What the code does that one might not expect

- A scrape port is read as a signed 16-bit number, so ports 32768 to 65535 are refused with a
  warning, and negative numbers wrap to upper ports (`TelegrafProperties.UpperPortsRefused`,
  `TelegrafProperties.PieceValue`).
- A gate's state survives printing and parsing exactly when it is `Flag.Printable`; an enabled
  gate whose name starts with a sign, or any gate whose name holds a comma, does not.
- The sidecar is injected at most once only while the native-sidecars gate is fixed; flipping it
  injects again and leaves two volumes of one name (`Injector.FlippedGateInjectsAgain`,
  `Injector.InjectedTwice`).
- A class update that fails puts back the copy it took before it had the write lock, and so can
  undo another update's commit (`ClassDataRuns.CommitCanBeLost`). Callers that let no update begin
  while another is under way never lose one (`ClassDataRuns.OneAtATimeKeepsCommits`). The operator
  itself has no caller of either kind: nothing in the repository calls `Update`.
- A worker whose create finds the name taken ends in success without a requeue. The pod is then
  not reconciled again unless something wakes its key (`Convergence.CreateSucceedsExactly`,
  `Convergence.RaceForgetsPod`, `Convergence.ForgottenForGood`).
- The controller acts on any pod that has the injected label, the cache shows only those where
  it is "true". The store differs exactly for a marked pod that is hidden and would have got a
  secret (`Reconciler.CacheKeepsStore`).
- A pod name with a dot gives a secret name with a dot when the dot is not cut off, which is not
  a label (`Injector.SecretNameIsLabel`, `Injector.DottedNameIsNoLabel`).
- The one namepass list written as `['a', 'b']` that is not kept is `['']`. Written bare, `a, b`, as
  the documentation has it, a list is kept exactly when the text is not empty and has no bracket at
  either end; a pattern such as `[ab]*` in first place loses its bracket
  (`TelegrafProperties.BareNamepass`).

## Model

| member | source | states |
|---|---|---|
| Convergence.FairRunsConverge | internal/controller/pod_controller.go:89-191 | In every endless undisturbed run in which the collector fires again and again unless it may not, and the pod's key is served again and again unless it is not pending, the pod on the way has its own secret from some moment on, for good. |
| Convergence.NewPodConverges | internal/controller/pod_controller.go:89-191 | From any start of the operator through any run: a configurable pod that comes up while its name is free or held for a dead pod, with no worker on its key or name, gets in every fair endless run that leaves pod and name alone a secret, for good, that it alone owns and that renders its configuration. |
| Convergence.FairRunExists | internal/controller/pod_controller.go:89-191 | Such an endless run there is from every state on the way. |
| Convergence.Converges | internal/controller/pod_controller.go:89-191 | Over every finite undisturbed run the distance, at most five, and four when the name is free, falls by at least the steps of progress; from a free name four of them give the pod its own secret, and in any case it has it where the run ends with an idle worker and no progress possible. |
| Convergence.SecretReachable | internal/controller/pod_controller.go:89-191 | From every state on the way, the pod's own secret is reached by some run that leaves the pod alone, also when its key waits and all four workers are busy. |
| Convergence.NewPodGetsItsSecret | internal/controller/pod_controller.go:89-191 | The same for finite runs: after four steps of progress if the name was free, and in any case where a run ends with an idle worker and no progress possible, the new pod has a secret it alone owns, rendering its configuration. |
| Convergence.StepApproaches | internal/controller/pod_controller.go:89-191 | The single step behind convergence: the situation is kept by every step of anybody and a step of progress brings the pod nearer. |
| Convergence.ProgressPossible | internal/controller/pod_controller.go:111-129 | Until the pod has its secret a step of progress is enabled, or, exactly when its key waits while all workers are busy, a step that takes a worker nearer its end. |
| Convergence.OwnSecretIsStable | internal/controller/pod_controller.go:116-122 | Once there, the secret never changes however often the pod is reconciled. |
| Convergence.CreateSucceedsExactly | internal/controller/pod_controller.go:175-190 | The create step gives the pod its own secret if and only if the key is absent; either way it ends without a requeue, and on a taken key changes nothing. |
| Convergence.RaceForgetsPod | internal/controller/pod_controller.go:129-184 | Whenever a worker found no secret, a third party writing the name before the create leads to a state where the pod has no secret and is neither queued nor worked on. |
| Convergence.ForgottenForGood | internal/controller/pod_controller.go:175-179 | From then on, in every run that does not wake the key, no secret is ever created for the pod, even if the one in its way is removed. |
| Protocol.RunKeepsInv | internal/controller/pod_controller.go:89-191 | Every run of the step system keeps the invariant: one worker per key, at most four, each holding one pod version from read to create, every operator secret built from one such version. |
| ProtocolSafety.OperatorOnlyInserts | internal/controller/pod_controller.go:89-191 | No worker step changes or removes anything; at most it inserts one faithful secret at an absent key. |
| ProtocolSafety.ReachableSecretsFaithful | internal/controller/pod_controller.go:89-191 | In every reachable state each operator secret has exactly one owner, the pod its worker read, lies in its namespace under its secret-name label, and its only datum is the rendering of the configuration that same pod version's annotations give over the class data and gates of one moment, between that worker's read of the pod and its create of the secret, at which it built. |
| ProtocolSafety.OneNameThroughout | internal/injectorwebhook/injector.go:97-115 | A secret created for a pod that carries the admission's label, whatever name the pod was given afterwards, has the name in the pod's volume, of at most 63 characters. |
| ProtocolSafety.OneNameForGood | internal/injectorwebhook/injector.go:97-115 | Over runs: once the admitted pod is stored under any name and UID, every operator secret it ever owns has the name in its volume, unless somebody edits its label. |
| ProtocolSafety.NoLeak | internal/controller/pod_controller.go:168-173 | In every state satisfying the invariant an operator secret is owned by a live pod or collectable, and never both. |
| ProtocolSafety.LateCreateIsCollectable | internal/controller/pod_controller.go:168-184 | A secret created for a pod that died since it was read is collectable at once. |
| ProtocolSafety.OrphansStayCollectable | internal/controller/pod_controller.go:168-173 | A collectable operator secret stays collectable through every run, for as long as it is there. |
| ProtocolSafety.DeadStaysDead | internal/controller/pod_controller.go:117-121 | A pod UID that was known and is gone from a namespace is never live there again. |
| ProtocolSafety.CollectorDrains | internal/controller/pod_controller.go:168-173 | From every state the collector alone reaches one with nothing to collect, taking exactly the collectable secrets. |
| ProtocolSafety.DrainedSecretsMapIntoPods | internal/controller/pod_controller.go:151-184 | With fixed secret-name labels and nothing left to collect, each operator secret belongs to a live pod naming it, and different secrets to different pods. |
| Reconciler.PodReconciler.Reconcile | internal/controller/pod_controller.go:89-130 | The new secret store and the answer, for every pod and secret store and every API error. If the store changes, one secret is new under a free key, made for that pod, rendering its configuration over the handler's data with the two gates' own states. |
| Reconciler.PodReconciler.ReconcileMissing | internal/controller/pod_controller.go:132-191 | Builds, sets the owner, creates; the store changes only on success at an absent key. |
| Reconciler.PodReconciler.ShouldAttemptReconciliation | internal/controller/pod_controller.go:193-201 | True exactly for pods that have the injected label, with any value. |
| Reconciler.AloneMeaning | internal/controller/pod_controller.go:89-201 | For every store and every API fault: when a Reconcile fails, when it asks to come back (the secret it sees has no owner of the pod's UID), when it does nothing and when it creates. |
| Reconciler.AloneIsARun | internal/controller/pod_controller.go:89-191 | The sequential Reconcile, with and without API faults, is a run of the step system by one worker, with the same secrets, and the key is queued again exactly when the answer asks for it. |
| Reconciler.CacheKeepsStore | cmd/main.go:242-266 | A Reconcile through the label-filtered cache leaves the same secrets as one with direct reads, unless, and only unless, the pod is marked other than "true" and would have got a secret. |
| Reconciler.CacheIsInvisible | cmd/main.go:250-265 | With every injected label "true", the filtered and the direct view always leave the same store. |
| Reconciler.CacheChangesAnswer | cmd/main.go:250-265 | For every store and key, exactly when the requeue answer is the same in the two views; for a visible pod it differs only when a secret without the managed-by label holds the name, for a hidden one when it neither owns its secret nor could create it. |
| TelegrafProperties.InputPrecedence | internal/controller/telegraf.go:199-236 | The final inputs have the union of keys, and at each key the raw value over the generated prometheus or internal input over the class's. |
| TelegrafProperties.SectionPrecedence | internal/controller/telegraf.go:238-278 | Agent and outputs are the class's; raw aggregators and processors go over the class's; a global tag is its annotation's value if present, else the class's. |
| TelegrafProperties.ConfigureMeaning | internal/controller/telegraf.go:188-278 | Building gives a configuration if and only if it is the one the annotations describe over the chosen class: agent and outputs of the class, every input, tag, aggregator and processor key by key; there is only one. |
| TelegrafProperties.SynthesizeMeaning | internal/controller/telegraf.go:188-286 | The text is the rendering of that configuration and of no other, and each error stands for exactly the first of missing class, bad class, bad inputs, bad aggregators, bad processors and failed rendering. |
| TelegrafProperties.ConfigureSucceeds | internal/controller/telegraf.go:188-272 | Override-then-build succeeds if and only if the chosen class exists and decodes and each active raw block decodes, and then gives the merge of those. |
| TelegrafProperties.OnlyClassAndRawBlocksDecide | internal/controller/telegraf.go:93-97 | With total rendering, two sets of annotations that agree on the class and the active raw blocks both succeed or both fail. |
| TelegrafProperties.AgentAndOutputsFromClassAlone | internal/controller/telegraf.go:194-201 | Two successful runs on the same class text agree on agent and outputs, whatever their settings, gates and other annotations. |
| TelegrafProperties.GatedOffBlockIsIgnored | internal/controller/telegraf.go:238-272 | With its gate off, the value of a raw block has no influence on the whole result, failure included. |
| TelegrafProperties.WarnsExactly | internal/controller/telegraf.go:97-185 | No warning if and only if the deprecated key is absent and every port, the version and the interval convert. |
| TelegrafProperties.WarningsMeaning | internal/controller/telegraf.go:97-157 | Each single warning is there exactly when its annotation is and does not convert, or is deprecated. |
| TelegrafProperties.PiecesConserved | internal/controller/telegraf.go:116-127 | For every list, ports and warnings together account for each piece exactly once, both in list order. |
| TelegrafProperties.PortsAreKept | internal/controller/telegraf.go:104-127 | The ports are, in order, the values of the deprecated annotation as it stands and of the trimmed pieces of the list that write a signed 16-bit number. |
| TelegrafProperties.PieceValue | internal/controller/telegraf.go:119-126 | 0 to 32767 is kept and prints back as the same number, a negative 16-bit number is taken modulo 65536, everything else becomes a warning. |
| Text.NumeralMeaning | internal/controller/telegraf.go:108-120 | Exactly the texts read as a number, and which: an optional sign and a decimal with any zeros in front. |
| Text.Uint8Meaning | internal/controller/telegraf.go:142 | Exactly the texts read as a metric version: an unsigned decimal up to 255 with any zeros in front. |
| TelegrafProperties.UpperPortsRefused | internal/controller/telegraf.go:120-124 | Of all port numbers in decimal, exactly those up to 32767 are accepted. |
| TelegrafProperties.ScrapeFromAnnotations | internal/controller/telegraf.go:203-221 | The generated scrape is the one and only the annotations ask for: one URL for each kept port in order, interval, metric version and names, with the documented defaults for what is absent or does not convert. |
| TelegrafProperties.NamepassRoundTrip | internal/controller/telegraf.go:137-139 | Writing a list as ['a', 'b'] with any spaces and reading it back gives that list, brackets at the ends of names included, for every list but the single empty name. |
| TelegrafProperties.BareNamepass | internal/metadata/annotations.go:117-125 | A list in the documented bare form comes back if and only if the text is not empty and has no bracket at either end. |
| TelegrafProperties.NamepassReachesInput | internal/controller/telegraf.go:137-221 | That list arrives unchanged in the generated prometheus input when there is a port and no raw prometheus input. |
| Telegraf.AnnotationValues.constructor | internal/controller/telegraf.go:73-89 | The record starts with the documented defaults. |
| Telegraf.AnnotationValues.ApplyAnnotationOverrides | internal/controller/telegraf.go:93-186 | The whole new record and the list of warnings, as functions of the old record and the annotations. |
| Telegraf.AnnotationValues.ReadPorts | internal/controller/telegraf.go:104-127 | The deprecated port, then the list, are appended to the ports; each failure is one warning. |
| Telegraf.AnnotationValues.ReadPortList | internal/controller/telegraf.go:117-126 | The loop over the pieces adds exactly the ports and warnings of the pieces, in order. |
| Telegraf.AnnotationValues.BuildConfigData | internal/controller/telegraf.go:188-286 | The rendering of the configuration built, MarshalFailed exactly when it does not render, or the error of the step that fails first. |
| Telegraf.AnnotationValues.MergeInputs | internal/controller/telegraf.go:203-236 | The inputs are overwritten in place in the order class, generated, raw. |
| Telegraf.AnnotationValues.MergeBlock | internal/controller/telegraf.go:238-272 | A raw block is decoded and laid over the class's only when non-empty and let through by its gate. |
| Telegraf.AnnotationValues.BuildPrometheusInput | internal/controller/telegraf.go:204-218 | The two loops build one URL for each port and one trimmed name for each namepass item. |
| Telegraf.Overwrite | internal/controller/telegraf.go:233-277 | Copying entries one by one in any order gives the map override. |
| ClassDataRuns.ReadersSeeWholeStates | internal/classdata/classdata.go:56-100 | Under every interleaving, the data outside the write lock and every answer ever given belong to one whole state: the constructor's, or an earlier one overlaid by all of a directory that some update of the run was given and could read to the end. Every such state is non-empty and every text a reader gets parses. |
| ClassDataRuns.RunKeepsInv | internal/classdata/classdata.go:56-86 | Every run keeps the lock discipline, the copies complete and unchanged, and the data equal to a version plus the files read so far. |
| ClassDataRuns.StartingClassesStay | internal/classdata/classdata.go:64-86 | No class the operator started with is missing from any later version. |
| ClassDataRuns.FailedUpdateRestoresItsCopy | internal/classdata/classdata.go:64-86 | Whatever else runs, a failing update ends with the data there was when its copy was complete: nothing is lost if no update ended before it had the write lock, and every commit of other data in between is. |
| ClassDataRuns.OneAtATimeKeepsCommits | internal/classdata/classdata.go:64-86 | If no update begins while another is under way, lookups running freely, the store always shows the latest commit outside the write lock, and a failing update leaves exactly that. |
| ClassDataRuns.CommitCanBeLost | internal/classdata/classdata.go:64-86 | From every state with no lock held and for every valid directory there is a run in which an update commits it and another that copied before fails after, and the commit is gone. |
| ClassDataRuns.UpdateAlone | internal/classdata/classdata.go:64-86 | An uninterrupted update is a run with exactly the effect promised by the sequential one. |
| ClassData.DirectoryHandler.NewDirectoryHandler | internal/classdata/classdata.go:39-54 | Succeeds exactly when the directory lists, no entry fails, and its files are at least one and all parse; then holds exactly those. |
| ClassData.DirectoryHandler.GetDataForClass | internal/classdata/classdata.go:56-62 | The class's data or the fact that there is none. |
| ClassData.DirectoryHandler.Update | internal/classdata/classdata.go:64-86 | Used alone: no error exactly when the directory lists, no entry fails and every text in the overlaid data parses; then the old map overlaid by every regular file, otherwise exactly the old map. |
| ClassData.DirectoryHandler.Validate | internal/classdata/classdata.go:88-100 | No error exactly when there is a class and each of them parses, for any order of the map; an error names a class that does not. |
| ClassData.DirectoryHandler.ReadClassData | internal/classdata/classdata.go:102-125 | No error exactly when the directory lists and no entry fails, and then the old map overlaid by its files; an error is that of the first entry that fails. |
| ClassData.FilesAreLatest | internal/classdata/classdata.go:108-122 | The overlay holds exactly the names of regular files, each with the contents of the last one of that name. |
| Flag.PrintSetRoundTrip | internal/featuregate/flag.go:47-104 | Printing a registry and setting the text on every registry with the same gate names restores the printed states without error if and only if each gate's state is printable. |
| Flag.PlainNamesRoundTrip | internal/featuregate/flag.go:47-104 | The round trip holds in every state for names that are non-empty, comma-free, free of surrounding space and not starting with a sign. |
| Flag.PrintedPieces | internal/featuregate/flag.go:47-62 | The printed text of comma-free names, piece by piece: the names in order, a dash before exactly those that are off. |
| Flag.DashedNameFails | internal/featuregate/flag.go:55-57 | A concrete registry for which the round trip fails. |
| Flag.SetSequence | internal/featuregate/flag.go:69-104 | Setting "s,t" gives the same states and the same list of errors as setting s and then t. |
| Flag.LastMentionWins | internal/featuregate/flag.go:77-101 | Each gate ends at its last mention or unchanged, and the set of gates never changes. |
| Flag.FlagValue.String | internal/featuregate/flag.go:47-62 | The printed form, a function of the gate states alone; empty without a registry. |
| Flag.FlagValue.Set | internal/featuregate/flag.go:69-104 | All mentions are applied in order whatever fails between them. On the text: each gate ends as the last piece that names it orders, or unchanged; one error for each piece that names an unknown gate, in order, listing the valid gates. |
| Flag.ResolveMeaning | internal/featuregate/flag.go:77-95 | The parser of a piece agrees with its grammar: white space, a sign that decides or none to turn on, a name, white space; blank pieces and no others ask for nothing. |
| Flag.WaysToName | internal/featuregate/flag.go:64-95 | A name without space at its ends is turned on by +name, off by -name, and on by the name alone if it starts with no sign, with any white space around. |
| Flag.SetsAsWritten | internal/featuregate/flag.go:69-104 | Applying the mentions does what the text orders, stated without the parser. |
| FeatureGate.Registry.VisitAll | internal/featuregate/gate.go:95-110 | Every gate once, in strictly increasing name order, for every order in which the map is ranged. |
| FeatureGate.SortByName | internal/featuregate/gate.go:103-105 | Sorts the slice in place into strictly increasing names, keeping exactly its gates. |
| FeatureGate.ListingUnique | internal/featuregate/gate.go:95-105 | A set of names has only one strictly increasing listing. |
| Text.LessMeaning | internal/featuregate/gate.go:103-105 | The order of names: the smaller character at the first difference, or a proper prefix. |
| FeatureGate.Registry.Register | internal/featuregate/gate.go:55-68 | Refused exactly when the name is taken, without a change; otherwise the gate is added in its default state. |
| FeatureGate.Registry.Get | internal/featuregate/gate.go:72-77 | The gate of that name, or null exactly when there is none. |
| FeatureGate.Registry.Set | internal/featuregate/gate.go:81-92 | A known gate alone changes; an unknown name changes nothing and its error lists all gates in order. |
| Metadata.WithPrefix | internal/metadata/util.go:5-13 | A name is selected exactly when prefix and name together are an annotation, with that annotation's value. |
| Metadata.GetAnnotationsWithPrefix | internal/metadata/util.go:5-13 | The loop computes that selection for every order of the map. |
| Sidecar.EnvConserved | internal/injectorwebhook/sidecar.go:57-256 | For every iteration order: the three defaults by name and path, then every variable some annotation writes, each exactly once and with the value written, and no other, the four kinds in a fixed order. |
| Sidecar.WrittenIsBuilt | internal/injectorwebhook/sidecar.go:198-256 | What the loops build for an annotation is exactly what it writes: literals and paths as they stand, key references cut at the first dot. |
| Sidecar.KeyRefsCutAtFirstDot | internal/injectorwebhook/sidecar.go:218-256 | A key reference is kept exactly when it has a dot, and name, dot and key then make up the value with a dot-free name. |
| Sidecar.PrefixesDisjoint | internal/metadata/annotations.go:63-76 | No annotation key belongs to two kinds or to two names. |
| Sidecar.ContainerConfig.NewContainerConfig | internal/injectorwebhook/sidecar.go:50-103 | Fails exactly when a quantity does not parse, an absent or zero CPU limit aside; starts with the three default variables. |
| Sidecar.ContainerConfig.ApplyAnnotationOverrides | internal/injectorwebhook/sidecar.go:105-263 | The environment is the defaults and four complete blocks; the image is the annotation's if present. |
| Sidecar.ContainerConfig.AppendVars | internal/injectorwebhook/sidecar.go:198-204 | One loop in any order appends one complete block. |
| Injector.SidecarInjector.Default | internal/injectorwebhook/injector.go:62-119 | All or nothing: the pod is unchanged when it is not to be injected or the configuration fails, and otherwise exactly the injected pod. |
| Injector.SidecarInjector.ShouldInjectContainer | internal/injectorwebhook/injector.go:121-133 | Exactly for annotated pods without a telegraf container in the watched list. |
| Injector.SidecarInjector.HasTelegrafContainer | internal/injectorwebhook/injector.go:135-150 | Looks for "telegraf" in the names of the list the gate selects. |
| Injector.AdmissionAppends | internal/injectorwebhook/injector.go:82-118 | An admission only appends to containers and volumes, changes no other label, and puts one name into label and volume. |
| Injector.AdmissionExactly | internal/injectorwebhook/injector.go:62-159 | When an admission injects, when it fails and with which result: no watched container's name has "telegraf" in it anywhere, some annotation key starts with the domain, the quantities parse; the container appended and the secret name, from the name or else the generateName without one trailing dash. |
| Injector.InjectsAtMostOnce | internal/injectorwebhook/injector.go:62-150 | With a fixed gate, over every life of a pod with any number of admissions and any edits that keep the container, at most one admission injects. |
| Injector.FlippedGateInjectsAgain | internal/injectorwebhook/injector.go:135-150 | An injected pod is injected again if and only if the gate was flipped and the other list has no telegraf container; it then has two volumes of one name. |
| Injector.InjectedTwice | internal/injectorwebhook/injector.go:89-109 | A concrete pod that is injected before and after the gate is turned on. |
| Injector.SecretNameLength | internal/injectorwebhook/injector.go:152-159 | Length min(base, 58) + 5, at most 63, ending in a dash and the random part. |
| Injector.SecretNameIsLabel | internal/injectorwebhook/injector.go:152-159 | The name is a label of section 2.1 of RFC 1123 if and only if what is kept of the base has label characters only and starts with a letter or digit. |
| Injector.PlainIdentifierGivesLabel | internal/injectorwebhook/injector.go:152-159 | So it is for every label prefix and every pod identifier of lower-case letters, digits and hyphens. |
| Injector.DottedNameIsNoLabel | internal/injectorwebhook/injector.go:152-159 | A concrete pod name with a dot whose secret name is no label. |

## Left out

- Manager, webhook server, TLS, leader election, health checks, flag wiring and startup validation of settings; a class handler that is nil because startup failed.
- TOML, JSON, quantity and duration parsing and TOML rendering: arbitrary functions here; a section that is nil and one that is empty are not told apart.
- Sidecar.ContainerConfig.NewContainerConfig: says when the quantities parse but does not keep them, nor the watch setting and the security context.
- Sidecar.ContainerConfig.ApplyAnnotationOverrides: covers the image and the environment; resources, `envFrom`, volume mounts, debug and watch flags and the security context are each settled by one branch and have no place in the model.
- FeatureGate.Registry.VisitAll: returns the gates in visiting order instead of calling a function on each; the registry is used by one thread, so the concurrent map and the atomic bits are not modelled.
- FeatureGate.SortByName: an insertion sort in place stands for the library's sort; names are distinct because each gate is stored under its own name.
- FeatureGate.Registry.Register: the panic on a taken name is an error result.
- Convergence.FairRunsConverge: fairness of collector and queue is its hypothesis; the scheduler and the five-second delay behind it are not modelled. Wake-ups from the secret watch are arbitrary `Wake` steps.
- Events and log lines, and the wording of error messages; warnings and errors are data.
- White space beyond ASCII, and Go's distinction of bytes and characters.
- The random part of a secret name is any five lower-case letters or digits.
- Helm charts, kustomize files, RBAC and build scripts.
