/**
The AgenticSRE custom resource: its specification, its conditions, and the
predicates that decide which features a specification switches on.
*/
module Spec {
  import opened Options

  /** Namespace and name of a custom resource. */
  datatype CrId = CrId(ns: string, name: string)

  datatype Webhook = Webhook(listen: string, serviceEnabled: bool, servicePort: int)

  /** A variable set in a container. */
  datatype EnvVar =
    | FromSecret(name: string, secretName: string, secretKey: string)
    | FromField(name: string, field: string)
    | Value(name: string, value: string)

  /** `flags` and `env` stand for the ticketing, trigger and DNS flags and variables, passed through. */
  datatype WatcherSpec = WatcherSpec(enabled: bool, replicas: int, webhook: Option<Webhook>, flags: seq<string>, env: seq<EnvVar>)

  datatype DiagnoseSpec = DiagnoseSpec(enabled: bool, schedule: string, backoffLimit: Option<int>)

  datatype RemediateSpec = RemediateSpec(enabled: bool, schedule: string, dryRun: bool)

  /** A storage size as written, with the verdict of the quantity parser on it. */
  datatype Quantity = Quantity(text: string, parses: bool)

  datatype MemorySpec = MemorySpec(enabled: bool, embeddingsModel: Option<string>, size: Option<Quantity>, storageClass: string)

  datatype MetricsSpec = MetricsSpec(addr: string, port: int)

  /** `flags` and `env` stand for the optional flags and `extraArgs`, the API key, ticketing and `extraEnv`, passed through. */
  datatype AiSpec = AiSpec(
    enabled: bool, endpoint: string, model: string, replicas: int,
    memory: Option<MemorySpec>, metrics: Option<MetricsSpec>, flags: seq<string>, env: seq<EnvVar>)

  datatype StoreSpec = StoreSpec(backend: string, namespace: string, replayConfigMap: string, runbookConfigMap: string)

  datatype TlsSpec = TlsSpec(enabled: bool, secretName: string)

  datatype IngressSpec = IngressSpec(
    enabled: bool, host: string, className: string, annotations: map<string, string>, tls: Option<TlsSpec>)

  datatype NetpolSpec = NetpolSpec(enabled: bool, gatewayNamespaceSelector: map<string, string>)

  datatype ApprovalSpec = ApprovalSpec(
    enabled: bool, replicas: int, store: Option<StoreSpec>, auditNamespace: string,
    signingSecretName: string, ingress: Option<IngressSpec>, netpol: Option<NetpolSpec>)

  datatype Channel = Channel(secretName: string, secretKey: string)

  datatype SlackSpec = SlackSpec(alerts: Option<Channel>, critical: Option<Channel>, healthInfo: Option<Channel>)

  /** `protectedNamespaces` is the extra list as parsed and joined, empty if there is nothing in it. */
  datatype CrSpec = CrSpec(
    imageRepository: string, imageTag: string, serviceAccountName: string,
    watcher: Option<WatcherSpec>, diagnose: Option<DiagnoseSpec>, remediate: Option<RemediateSpec>,
    ai: Option<AiSpec>, approval: Option<ApprovalSpec>, slack: Option<SlackSpec>,
    protectedNamespaces: string)

  datatype ConditionStatus = True | False | Unknown

  datatype Condition = Condition(
    kind: string, status: ConditionStatus, reason: string, lastTransition: int, observedGeneration: int)

  datatype CrStatus = CrStatus(conditions: seq<Condition>, observedGeneration: int)

  /** The custom resource as the API server stores it. */
  datatype Cr = Cr(
    id: CrId, uid: nat, rv: nat, generation: int, deleting: bool,
    finalizers: set<string>, spec: CrSpec, status: CrStatus)

  const FINALIZER := "srenix.ai/operator-rbac"

  // ---------- which features are on ----------

  predicate WatcherEnabled(s: CrSpec) { s.watcher.Some? && s.watcher.value.enabled }

  predicate AiEnabled(s: CrSpec) { s.ai.Some? && s.ai.value.enabled }

  /** Memory is gated independently of the AI switch. */
  predicate MemoryEnabled(s: CrSpec) {
    s.ai.Some? && s.ai.value.memory.Some? && s.ai.value.memory.value.enabled
  }

  predicate MetricsOn(s: CrSpec) {
    AiEnabled(s) && s.ai.value.metrics.Some? && s.ai.value.metrics.value.addr != ""
  }

  predicate ApprovalEnabled(s: CrSpec) { s.approval.Some? && s.approval.value.enabled }

  predicate IngressEnabled(s: CrSpec) {
    ApprovalEnabled(s) && s.approval.value.ingress.Some? && s.approval.value.ingress.value.enabled
  }

  predicate NetpolEnabled(s: CrSpec) {
    ApprovalEnabled(s) && s.approval.value.netpol.Some? && s.approval.value.netpol.value.enabled
  }

  predicate WebhookReceiverOn(s: CrSpec) {
    WatcherEnabled(s) && s.watcher.value.webhook.Some? && s.watcher.value.webhook.value.listen != ""
  }

  predicate WebhookServiceOn(s: CrSpec) {
    WebhookReceiverOn(s) && s.watcher.value.webhook.value.serviceEnabled
  }

  // ---------- resolved values ----------

  function ApprovalReplicas(s: CrSpec): int {
    if s.approval.None? || s.approval.value.replicas == 0 then 1 else s.approval.value.replicas
  }

  function StoreBackend(s: CrSpec): string {
    if s.approval.Some? && s.approval.value.store.Some? && s.approval.value.store.value.backend != ""
    then s.approval.value.store.value.backend
    else "inmemory"
  }

  /** The namespace audit events go to: the resource's own unless pinned elsewhere. */
  function AuditNamespace(id: CrId, s: CrSpec): string {
    if s.approval.Some? && s.approval.value.auditNamespace != "" then s.approval.value.auditNamespace else id.ns
  }

  function StoreNamespace(id: CrId, s: CrSpec): string {
    if s.approval.Some? && s.approval.value.store.Some? && s.approval.value.store.value.namespace != ""
    then s.approval.value.store.value.namespace
    else id.ns
  }

  const DEFAULT_SIGNING_SECRET := "srenix-approval-signing-key"

  function SigningSecretName(s: CrSpec): string {
    if s.approval.Some? && s.approval.value.signingSecretName != "" then s.approval.value.signingSecretName
    else DEFAULT_SIGNING_SECRET
  }

  // ---------- validation at the reconciler's door ----------

  /** The checks made before any child is touched, in the order they are made. */
  predicate Valid(s: CrSpec) {
    && s.imageTag != ""
    && (AiEnabled(s) ==>
          && s.ai.value.endpoint != ""
          && s.ai.value.model != ""
          && (MemoryEnabled(s) ==>
                s.ai.value.memory.value.embeddingsModel.Some? && s.ai.value.memory.value.embeddingsModel.value != ""))
    && (MemoryEnabled(s) && s.ai.value.memory.value.size.Some? && s.ai.value.memory.value.size.value.text != ""
        ==> s.ai.value.memory.value.size.value.parses)
    && (IngressEnabled(s) ==> s.approval.value.ingress.value.host != "")
    && (NetpolEnabled(s) ==> s.approval.value.netpol.value.gatewayNamespaceSelector != map[])
    && (ApprovalEnabled(s) ==> !(StoreBackend(s) == "inmemory" && ApprovalReplicas(s) > 1))
  }
}
