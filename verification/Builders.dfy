/**
The pure builders: from a custom resource to the children it asks for. A builder
returns `None` where the specification switches its child off.
*/
module Builders {
  import opened Options
  import opened Spec
  import opened Store

  // ---------- names ----------

  function WatcherName(id: CrId): string { id.name + "-watcher" }
  function WebhookName(id: CrId): string { id.name + "-webhook" }
  function DiagnoseName(id: CrId): string { id.name + "-diagnose" }
  function RemediateName(id: CrId): string { id.name + "-remediate" }
  function AiWatchName(id: CrId): string { id.name + "-aiwatch" }
  function MetricsName(id: CrId): string { id.name + "-aiwatch-metrics" }
  function RagName(id: CrId): string { id.name + "-rag" }
  function ApprovalName(id: CrId): string { id.name + "-approval-server" }
  function SigningReaderName(id: CrId): string { id.name + "-approval-server-signing-reader" }
  function EventsName(id: CrId): string { id.name + "-approval-server-events" }
  function StoresName(id: CrId): string { id.name + "-approval-server-stores" }
  function SilenceWriterName(id: CrId): string { id.name + "-approval-server-silence-writer" }

  function ServiceAccountName(cr: Cr): string {
    if cr.spec.serviceAccountName != "" then cr.spec.serviceAccountName else cr.id.name + "-sa"
  }

  const READER_ROLE := "srenix-operator-watcher-reader"
  const FIXER_ROLE := "srenix-operator-approval-fixer"

  /** The names of the two cluster-scoped bindings. They are not injective in (namespace, name). */
  function ReaderBindingName(id: CrId): string { "srenix-operator-watcher-" + id.ns + "-" + id.name }
  function FixerBindingName(id: CrId): string { "srenix-operator-approval-fixer-" + id.ns + "-" + id.name }

  // ---------- keys ----------

  function Child(kind: Kind, id: CrId, name: string): Key { Key(kind, id.ns, name) }

  function ReaderRoleKey(): Key { Key(ClusterRole, "", READER_ROLE) }
  function FixerRoleKey(): Key { Key(ClusterRole, "", FIXER_ROLE) }
  function ReaderBindingKey(id: CrId): Key { Key(ClusterRoleBinding, "", ReaderBindingName(id)) }
  function FixerBindingKey(id: CrId): Key { Key(ClusterRoleBinding, "", FixerBindingName(id)) }
  function SigningSecretKey(cr: Cr): Key { Key(Secret, cr.id.ns, SigningSecretName(cr.spec)) }
  function EventsRoleKey(cr: Cr): Key { Key(Role, AuditNamespace(cr.id, cr.spec), EventsName(cr.id)) }
  function EventsBindingKey(cr: Cr): Key { Key(RoleBinding, AuditNamespace(cr.id, cr.spec), EventsName(cr.id)) }

  // ---------- labels ----------

  const NAME_LABEL := "app.kubernetes.io/name"
  const INSTANCE_LABEL := "app.kubernetes.io/instance"
  const MANAGER_LABEL := "app.kubernetes.io/managed-by"
  const COMPONENT_LABEL := "app.kubernetes.io/component"
  const ROLE_LABEL := "srenix.ai/role"
  const CR_LABEL := "srenix.ai/managed-by-cr"
  const CR_NAMESPACE_LABEL := "srenix.ai/cr-namespace"

  function CommonLabels(id: CrId, role: string): Labels {
    var base: Labels := map[NAME_LABEL := "agentic-sre", INSTANCE_LABEL := id.name, MANAGER_LABEL := "srenix-operator"];
    if role == "" then base else base[ROLE_LABEL := role]
  }

  function ClusterLabels(component: string): Labels {
    map[MANAGER_LABEL := "srenix-operator", NAME_LABEL := "agentic-sre", COMPONENT_LABEL := component]
  }

  function BindingLabels(id: CrId, component: string): Labels {
    ClusterLabels(component)[CR_LABEL := id.name][CR_NAMESPACE_LABEL := id.ns]
  }

  /** A label's value, the empty string when it is absent. */
  function LabelOf(labels: Labels, name: string): string {
    if name in labels then labels[name] else ""
  }

  // ---------- images, arguments, environment ----------

  function Image(s: CrSpec): string { s.imageRepository + ":" + s.imageTag }

  predicate ChannelOn(c: Option<Channel>) { c.Some? && c.value.secretName != "" }

  function SecretEnv(variable: string, c: Channel): EnvVar {
    FromSecret(variable, c.secretName, if c.secretKey != "" then c.secretKey else "WEBHOOK_URL")
  }

  function AlertingArgs(s: CrSpec): seq<Arg> {
    if s.slack.None? then []
    else
      (if ChannelOn(s.slack.value.alerts) then [FromEnv("--slack-alerts=", "SLACK_ALERTS_URL")] else [])
      + (if ChannelOn(s.slack.value.critical) then [FromEnv("--slack-critical=", "SLACK_CRITICAL_URL")] else [])
  }

  function AlertingEnv(s: CrSpec): seq<EnvVar> {
    if s.slack.None? then []
    else
      (if ChannelOn(s.slack.value.alerts) then [SecretEnv("SLACK_ALERTS_URL", s.slack.value.alerts.value)] else [])
      + (if ChannelOn(s.slack.value.critical) then [SecretEnv("SLACK_CRITICAL_URL", s.slack.value.critical.value)] else [])
  }

  function HealthInfoArgs(s: CrSpec): seq<Arg> {
    if s.slack.Some? && ChannelOn(s.slack.value.healthInfo)
    then [FromEnv("--slack-healthinfo=", "SLACK_HEALTHINFO_URL")] else []
  }

  function HealthInfoEnv(s: CrSpec): seq<EnvVar> {
    if s.slack.Some? && ChannelOn(s.slack.value.healthInfo)
    then [SecretEnv("SLACK_HEALTHINFO_URL", s.slack.value.healthInfo.value)] else []
  }

  const POD_ENV := [FromField("MY_POD_NAMESPACE", "metadata.namespace"), FromField("MY_POD_NAME", "metadata.name")]

  const SIGNING_KEY_ENV := [Value("SRENIX_SIGNING_KEY_PATH", "/etc/srenix/keys/signing.key")]

  function ProtectedEnv(s: CrSpec): seq<EnvVar> {
    if s.protectedNamespaces == "" then [] else [Value("SRENIX_PROTECTED_NAMESPACES_EXTRA", s.protectedNamespaces)]
  }

  function Texts(flags: seq<string>): (r: seq<Arg>)
    ensures |r| == |flags| && forall i :: 0 <= i < |r| ==> r[i] == Text(flags[i])
  {
    seq(|flags|, i requires 0 <= i < |flags| => Text(flags[i]))
  }

  // ---------- service account ----------

  function BuildServiceAccount(cr: Cr): Desired {
    Desired(CommonLabels(cr.id, ""), map[], true, NoBody)
  }

  // ---------- watcher ----------

  function WebhookPort(h: Webhook): int { if h.servicePort != 0 then h.servicePort else 8090 }

  function WatcherPod(cr: Cr): Pod
    requires WatcherEnabled(cr.spec)
  {
    Pod(CommonLabels(cr.id, "watcher"), ServiceAccountName(cr), Image(cr.spec),
        [Text("watch"), Text("--live")] + AlertingArgs(cr.spec) + Texts(cr.spec.watcher.value.flags),
        POD_ENV + AlertingEnv(cr.spec) + cr.spec.watcher.value.env + ProtectedEnv(cr.spec),
        [Port("health", 8081)]
        + (if WebhookReceiverOn(cr.spec) then [Port("webhook", WebhookPort(cr.spec.watcher.value.webhook.value))] else []))
  }

  function BuildWatcher(cr: Cr): Option<Desired> {
    if !WatcherEnabled(cr.spec) then None
    else
      var replicas := cr.spec.watcher.value.replicas;
      var labels := CommonLabels(cr.id, "watcher");
      Some(Desired(labels, map[], true,
                   DeploymentBody(if replicas == 0 then 1 else replicas, WatcherPod(cr), RollingUpdate, labels)))
  }

  function BuildWebhookService(cr: Cr): Option<Desired> {
    if !WebhookServiceOn(cr.spec) then None
    else
      Some(Desired(CommonLabels(cr.id, "watcher-webhook"), map[], true,
                   ServiceBody([ServicePort("webhook", WebhookPort(cr.spec.watcher.value.webhook.value), "webhook")],
                               CommonLabels(cr.id, "watcher"), "")))
  }

  // ---------- cron jobs ----------

  function CronPod(cr: Cr, role: string, args: seq<Arg>, env: seq<EnvVar>): Pod {
    Pod(CommonLabels(cr.id, role), ServiceAccountName(cr), Image(cr.spec), args, env + ProtectedEnv(cr.spec), [])
  }

  function BuildDiagnose(cr: Cr): Option<Desired> {
    if cr.spec.diagnose.None? || !cr.spec.diagnose.value.enabled then None
    else
      var d := cr.spec.diagnose.value;
      var pod := CronPod(cr, "diagnose",
                         [Text("diagnose"), Text("--live"), Text("--format=daily")] + HealthInfoArgs(cr.spec),
                         HealthInfoEnv(cr.spec));
      Some(Desired(CommonLabels(cr.id, "diagnose"), map[], true,
                   CronJobBody(if d.schedule == "" then "0 9 * * *" else d.schedule, pod,
                               if d.backoffLimit.Some? then d.backoffLimit.value else 1, "Forbid", false)))
  }

  function BuildRemediate(cr: Cr): Option<Desired> {
    if cr.spec.remediate.None? || !cr.spec.remediate.value.enabled then None
    else
      var m := cr.spec.remediate.value;
      var pod := CronPod(cr, "remediate",
                         [Text("remediate"), Text("--live")] + (if m.dryRun then [Text("--dry-run=true")] else []), []);
      Some(Desired(CommonLabels(cr.id, "remediate"), map[], true,
                   CronJobBody(if m.schedule == "" then "*/30 * * * *" else m.schedule, pod, 1, "Forbid", false)))
  }

  // ---------- AI watcher ----------

  function MetricsPort(m: MetricsSpec): int { if m.port == 0 then 9090 else m.port }

  function AiPod(cr: Cr): Pod
    requires AiEnabled(cr.spec)
  {
    var ai := cr.spec.ai.value;
    Pod(CommonLabels(cr.id, "aiwatch"), ServiceAccountName(cr), "docker4zerocool/srenix-enterprise:v" + cr.spec.imageTag,
        [Text("watch"), Text("--ai-endpoint=" + ai.endpoint), Text("--ai-model=" + ai.model)]
        + (if ai.replicas > 1 then [Text("--leader-election=true")] else [])
        + Texts(ai.flags),
        POD_ENV + ai.env + ProtectedEnv(cr.spec) + (if ApprovalEnabled(cr.spec) then SIGNING_KEY_ENV else []),
        if MetricsOn(cr.spec) then [Port("metrics", MetricsPort(ai.metrics.value))] else [])
  }

  function BuildAiWatch(cr: Cr): Option<Desired> {
    if !AiEnabled(cr.spec) then None
    else
      var replicas := cr.spec.ai.value.replicas;
      var labels := CommonLabels(cr.id, "aiwatch");
      Some(Desired(labels, map[], true,
                   DeploymentBody(if replicas > 0 then replicas else 1, AiPod(cr), Recreate, labels)))
  }

  function BuildMetricsService(cr: Cr): Option<Desired> {
    if !MetricsOn(cr.spec) then None
    else
      Some(Desired(CommonLabels(cr.id, "aiwatch-metrics"), map[], true,
                   ServiceBody([ServicePort("metrics", MetricsPort(cr.spec.ai.value.metrics.value), "metrics")],
                               CommonLabels(cr.id, "aiwatch"), "None")))
  }

  // ---------- vector store ----------

  function BuildRagService(cr: Cr): Option<Desired> {
    if !MemoryEnabled(cr.spec) then None
    else
      var labels := CommonLabels(cr.id, "rag");
      Some(Desired(labels, map[], true,
                   ServiceBody([ServicePort("http", 6333, "http"), ServicePort("grpc", 6334, "grpc")], labels, "")))
  }

  function StorageSize(m: MemorySpec): string {
    if m.size.Some? && m.size.value.text != "" && m.size.value.parses then m.size.value.text else "5Gi"
  }

  const RAG_ENV := [
    Value("QDRANT__STORAGE__SNAPSHOTS_PATH", "/qdrant/storage/snapshots"), Value("QDRANT__STORAGE__TEMP_PATH", "/qdrant/storage/temp")]

  function BuildRag(cr: Cr): Option<Desired> {
    if !MemoryEnabled(cr.spec) then None
    else
      var labels := CommonLabels(cr.id, "rag");
      var m := cr.spec.ai.value.memory.value;
      var pod := Pod(labels, "", "qdrant/qdrant:v1.12.4", [], RAG_ENV, [Port("http", 6333), Port("grpc", 6334)]);
      Some(Desired(labels, map[], true,
                   StatefulSetBody(1, pod, "", labels, RagName(cr.id), m.storageClass + "/" + StorageSize(m))))
  }

  // ---------- approval server ----------

  function BuildApprovalServiceAccount(cr: Cr): Option<Desired> {
    if !ApprovalEnabled(cr.spec) then None
    else Some(Desired(CommonLabels(cr.id, "approval-server"), map[], true, NoBody))
  }

  function BuildApprovalService(cr: Cr): Option<Desired> {
    if !ApprovalEnabled(cr.spec) then None
    else
      var labels := CommonLabels(cr.id, "approval-server");
      Some(Desired(labels, map[], true, ServiceBody([ServicePort("http", 8443, "http")], labels, "")))
  }

  function BackendArg(backend: string): Arg { Text("--store-backend=" + backend) }

  function ReplayConfigMap(s: CrSpec): string {
    if s.approval.Some? && s.approval.value.store.Some? && s.approval.value.store.value.replayConfigMap != ""
    then s.approval.value.store.value.replayConfigMap else "srenix-approval-replay"
  }

  function RunbookConfigMap(s: CrSpec): string {
    if s.approval.Some? && s.approval.value.store.Some? && s.approval.value.store.value.runbookConfigMap != ""
    then s.approval.value.store.value.runbookConfigMap else "srenix-approval-runbooks"
  }

  function StoreArgs(cr: Cr): seq<Arg> {
    var backend := StoreBackend(cr.spec);
    if backend == "inmemory" then []
    else
      [BackendArg(backend)]
      + (if cr.spec.approval.Some? && cr.spec.approval.value.store.Some? && cr.spec.approval.value.store.value.namespace != ""
         then [Text("--store-namespace=" + cr.spec.approval.value.store.value.namespace)] else [])
      + [Text("--store-replay-configmap=" + ReplayConfigMap(cr.spec)),
         Text("--store-runbook-configmap=" + RunbookConfigMap(cr.spec))]
  }

  function ApprovalPod(cr: Cr): Pod {
    Pod(CommonLabels(cr.id, "approval-server"), ApprovalName(cr.id), "docker4zerocool/srenix-enterprise:v" + cr.spec.imageTag,
        [Text("approval-server"), Text("--listen=:8443"), Text("--signing-key-path=/etc/srenix/keys/signing.key"),
         Text("--audit-namespace=" + AuditNamespace(cr.id, cr.spec))]
        + StoreArgs(cr),
        SIGNING_KEY_ENV, [Port("http", 8443)])
  }

  function BuildApproval(cr: Cr): Option<Desired> {
    if !ApprovalEnabled(cr.spec) then None
    else
      var labels := CommonLabels(cr.id, "approval-server");
      Some(Desired(labels, map[], true,
                   DeploymentBody(ApprovalReplicas(cr.spec), ApprovalPod(cr),
                                  if StoreBackend(cr.spec) == "configmap" then RollingUpdate else Recreate, labels)))
  }

  function BuildNetworkPolicy(cr: Cr): Option<Desired> {
    if !NetpolEnabled(cr.spec) then None
    else
      var labels := CommonLabels(cr.id, "approval-server");
      Some(Desired(labels, map[], true,
                   NetworkPolicyBody(labels, cr.spec.approval.value.netpol.value.gatewayNamespaceSelector, 8443)))
  }

  const FRONT_DOORS := ["/approve", "/deny", "/silence", "/healthz"]

  function BuildIngress(cr: Cr): Option<Desired> {
    if !IngressEnabled(cr.spec) then None
    else
      var ing := cr.spec.approval.value.ingress.value;
      var tls :=
        if ing.tls.Some? && ing.tls.value.enabled
        then Some(if ing.tls.value.secretName == "" then ApprovalName(cr.id) + "-tls" else ing.tls.value.secretName)
        else None;
      Some(Desired(CommonLabels(cr.id, "approval-server"), ing.annotations, true,
                   IngressBody(IngressRules(
                     ing.host, ing.className,
                     seq(|FRONT_DOORS|, i requires 0 <= i < |FRONT_DOORS| => IngressPath(FRONT_DOORS[i], ApprovalName(cr.id), "http")),
                     tls))))
  }

  // ---------- access control ----------

  function ReaderRole(): Desired { Desired(ClusterLabels("reader"), map[], false, RoleBody(ReaderRules)) }

  function FixerRole(): Desired { Desired(ClusterLabels("approval-fixer"), map[], false, RoleBody(FixerRules)) }

  function ReaderBinding(cr: Cr): Desired {
    Desired(BindingLabels(cr.id, "reader"), map[], false,
            BindingBody(READER_ROLE, [Subject("ServiceAccount", ServiceAccountName(cr), cr.id.ns)]))
  }

  function FixerBinding(cr: Cr): Desired {
    Desired(BindingLabels(cr.id, "approval-fixer"), map[], false,
            BindingBody(FIXER_ROLE, [Subject("ServiceAccount", ApprovalName(cr.id), cr.id.ns)]))
  }

  /** A namespaced role and its binding; both are owned only inside the resource's own namespace. */
  datatype RolePair = RolePair(ns: string, name: string, role: Desired, binding: Desired)

  function Pair(cr: Cr, ns: string, name: string, rules: Rules): RolePair {
    var labels := CommonLabels(cr.id, "approval-server");
    RolePair(ns, name,
             Desired(labels, map[], ns == cr.id.ns, RoleBody(rules)),
             Desired(labels, map[], ns == cr.id.ns,
                     BindingBody(name, [Subject("ServiceAccount", ApprovalName(cr.id), cr.id.ns)])))
  }

  function SigningReaderPair(cr: Cr): RolePair {
    Pair(cr, cr.id.ns, SigningReaderName(cr.id), SigningReaderRules(SigningSecretName(cr.spec)))
  }

  function EventsPair(cr: Cr): RolePair {
    Pair(cr, AuditNamespace(cr.id, cr.spec), EventsName(cr.id), EventRules)
  }

  /** The store roles exist for the configmap backend only. */
  function StoresPair(cr: Cr): Option<RolePair> {
    if StoreBackend(cr.spec) != "configmap" then None
    else Some(Pair(cr, StoreNamespace(cr.id, cr.spec), StoresName(cr.id),
                   StoreRules(ReplayConfigMap(cr.spec), RunbookConfigMap(cr.spec))))
  }

  function SilenceWriterPair(cr: Cr): RolePair {
    Pair(cr, cr.id.ns, SilenceWriterName(cr.id), SilenceRules)
  }

  function RolePairs(cr: Cr): seq<RolePair> {
    [SigningReaderPair(cr), EventsPair(cr)]
    + (if StoresPair(cr).Some? then [StoresPair(cr).value] else [])
    + [SilenceWriterPair(cr)]
  }
}
