/**
What the children of one reconcile are made of, where one part has to fit another or the specification:
replicas and roll-outs, images, schedules, ports and front doors, variables and labels.
*/
module Contents {
  import opened Options
  import opened Spec
  import opened Store
  import opened Builders
  import opened Permissions

  // ---------- replicas and roll-outs ----------

  function Given(n: int): int { if n == 0 then 1 else n }

  /**
  Replicas are those asked for, one where none are. A second AI watcher comes with leader election, and two of it are never
  run at once for a roll-out; approval pods are rolled, and so run side by side, exactly if they share their store.
  */
  lemma FleetsAreAsAsked(cr: Cr)
    ensures BuildWatcher(cr).Some? ==>
              var b := BuildWatcher(cr).value.body; b.replicas == Given(cr.spec.watcher.value.replicas) && b.strategy == RollingUpdate
    ensures BuildAiWatch(cr).Some? ==>
              var b, asked := BuildAiWatch(cr).value.body, cr.spec.ai.value.replicas;
              && b.strategy == Recreate && (asked >= 0 ==> b.replicas == Given(asked)) && b.replicas >= 1
              && (b.replicas > 1 ==> Text("--leader-election=true") in b.template.args)
              && (Text("--leader-election=true") in b.template.args ==> b.replicas > 1 || "--leader-election=true" in cr.spec.ai.value.flags)
    ensures BuildApproval(cr).Some? ==>
              var b := BuildApproval(cr).value.body;
              && b.replicas == Given(cr.spec.approval.value.replicas)
              && (b.strategy == RollingUpdate <==> Text("--store-backend=configmap") in b.template.args)
              && (Valid(cr.spec) && b.replicas > 1 ==> exists backend :: backend != "inmemory" && Text("--store-backend=" + backend) in b.template.args)
    ensures BuildRag(cr).Some? ==> BuildRag(cr).value.body.replicas == 1
  {
    hide CommonLabels, AlertingArgs, AlertingEnv, ProtectedEnv;
    if AiEnabled(cr.spec) { LeaderElection(cr); }
    if ApprovalEnabled(cr.spec) { StoreOfFleet(cr); }
    hide WatcherPod, AiPod, ApprovalPod;
  }

  lemma LeaderElection(cr: Cr)
    requires AiEnabled(cr.spec)
    ensures var asked := cr.spec.ai.value.replicas;
            && (asked > 1 ==> Text("--leader-election=true") in AiPod(cr).args)
            && (Text("--leader-election=true") in AiPod(cr).args ==> asked > 1 || "--leader-election=true" in cr.spec.ai.value.flags)
  {
    hide CommonLabels, ProtectedEnv;
    var ai := cr.spec.ai.value;
    var a, b, c := [Text("watch"), Text("--ai-endpoint=" + ai.endpoint), Text("--ai-model=" + ai.model)],
                   if ai.replicas > 1 then [Text("--leader-election=true")] else [],
                   Texts(ai.flags);
    assert AiPod(cr).args == a + b + c;
    assert forall x :: x in a + b + c <==> x in a || x in b || x in c;
    assert ("--ai-endpoint=" + ai.endpoint)[2] == 'a' && ("--ai-model=" + ai.model)[2] == 'a' && "--leader-election=true"[2] == 'l';
    if ai.replicas > 1 { assert b[0] in b; }
    if Text("--leader-election=true") in c {
      var i :| 0 <= i < |c| && c[i] == Text("--leader-election=true");
      assert ai.flags[i] in ai.flags;
    }
  }

  lemma StoreOfFleet(cr: Cr)
    requires ApprovalEnabled(cr.spec)
    ensures Text("--store-backend=configmap") in ApprovalPod(cr).args <==> StoreBackend(cr.spec) == "configmap"
    ensures StoreBackend(cr.spec) != "inmemory" ==> Text("--store-backend=" + StoreBackend(cr.spec)) in ApprovalPod(cr).args
  {
    hide CommonLabels, AuditNamespace, ReplayConfigMap, RunbookConfigMap;
    var backend := StoreBackend(cr.spec);
    var front, args := [Text("approval-server"), Text("--listen=:8443"), Text("--signing-key-path=/etc/srenix/keys/signing.key"),
                        Text("--audit-namespace=" + AuditNamespace(cr.id, cr.spec))], StoreArgs(cr);
    assert ApprovalPod(cr).args == front + args;
    assert forall x :: x in front + args <==> x in front || x in args;
    BackendTells(backend);
    assert ("--audit-namespace=" + AuditNamespace(cr.id, cr.spec))[2] == 'a';
    if backend != "inmemory" { assert args[0] == Text("--store-backend=" + backend) && args[0] in args; }
    forall i | 0 < i < |args| ensures args[i] != Text("--store-backend=configmap") { OtherStoreArgs(cr, i); }
    hide StoreArgs, StoreBackend;
  }

  lemma BackendTells(backend: string)
    ensures "--store-backend=" + backend == "--store-backend=configmap" <==> backend == "configmap"
  {
    assert ("--store-backend=" + backend)[16..] == backend && "--store-backend=configmap"[16..] == "configmap";
  }

  lemma OtherStoreArgs(cr: Cr, i: nat)
    requires 0 < i < |StoreArgs(cr)|
    ensures StoreArgs(cr)[i].Text? && StoreArgs(cr)[i] != Text("--store-backend=configmap")
  {
    hide ReplayConfigMap, RunbookConfigMap, StoreBackend;
    assert "--store-backend=configmap"[8] == 'b';
    assert forall x: string :: ("--store-namespace=" + x)[8] == 'n';
    assert forall x: string :: ("--store-replay-configmap=" + x)[8] == 'r' && ("--store-runbook-configmap=" + x)[8] == 'r';
  }

  // ---------- what runs, from which image, and when ----------

  predicate Runs(p: Pod, command: string, image: string) { p.args != [] && p.args[0] == Text(command) && p.image == image }

  /** Each workload runs its own command, and all of them but the vector store run the version the specification names. */
  lemma CommandsAndImages(cr: Cr)
    ensures var plain := cr.spec.imageRepository + ":" + cr.spec.imageTag;
            var enterprise := "docker4zerocool/srenix-enterprise:v" + cr.spec.imageTag;
            && (BuildWatcher(cr).Some? ==> Runs(BuildWatcher(cr).value.body.template, "watch", plain))
            && (BuildDiagnose(cr).Some? ==> Runs(BuildDiagnose(cr).value.body.job, "diagnose", plain))
            && (BuildRemediate(cr).Some? ==> Runs(BuildRemediate(cr).value.body.job, "remediate", plain))
            && (BuildAiWatch(cr).Some? ==> Runs(BuildAiWatch(cr).value.body.template, "watch", enterprise))
            && (BuildApproval(cr).Some? ==> Runs(BuildApproval(cr).value.body.template, "approval-server", enterprise))
            && (BuildRag(cr).Some? ==> BuildRag(cr).value.body.template.image == "qdrant/qdrant:v1.12.4")
  {
    hide CommonLabels, AlertingArgs, AlertingEnv, ProtectedEnv, HealthInfoArgs, HealthInfoEnv, StoreArgs;
  }

  /** All look at the live cluster, remediation only looks exactly if it is told to, and every flag passed through gets there. */
  lemma ModesAreAsAsked(cr: Cr)
    ensures BuildWatcher(cr).Some? ==> Text("--live") in BuildWatcher(cr).value.body.template.args
    ensures BuildDiagnose(cr).Some? ==>
              Text("--live") in BuildDiagnose(cr).value.body.job.args && Text("--format=daily") in BuildDiagnose(cr).value.body.job.args
    ensures BuildRemediate(cr).Some? ==>
              var args := BuildRemediate(cr).value.body.job.args;
              Text("--live") in args && (Text("--dry-run=true") in args <==> cr.spec.remediate.value.dryRun)
    ensures BuildAiWatch(cr).Some? ==>
              var args := BuildAiWatch(cr).value.body.template.args;
              Text("--ai-endpoint=" + cr.spec.ai.value.endpoint) in args && Text("--ai-model=" + cr.spec.ai.value.model) in args
    ensures BuildWatcher(cr).Some? ==>
              forall f :: f in cr.spec.watcher.value.flags ==> Text(f) in BuildWatcher(cr).value.body.template.args
    ensures BuildAiWatch(cr).Some? ==>
              forall f :: f in cr.spec.ai.value.flags ==> Text(f) in BuildAiWatch(cr).value.body.template.args
  {
    hide BuildDiagnose, BuildRemediate, WatcherPod, AiPod, CommonLabels;
    CronJobModes(cr);
    if WatcherEnabled(cr.spec) { WatcherModes(cr); }
    if AiEnabled(cr.spec) { AiModes(cr); }
  }

  lemma CronJobModes(cr: Cr)
    ensures BuildDiagnose(cr).Some? ==>
              Text("--live") in BuildDiagnose(cr).value.body.job.args && Text("--format=daily") in BuildDiagnose(cr).value.body.job.args
    ensures BuildRemediate(cr).Some? ==>
              var args := BuildRemediate(cr).value.body.job.args;
              Text("--live") in args && (Text("--dry-run=true") in args <==> cr.spec.remediate.value.dryRun)
  {
    hide CommonLabels, ProtectedEnv, HealthInfoEnv, HealthInfoArgs;
    if BuildDiagnose(cr).Some? {
      var args := BuildDiagnose(cr).value.body.job.args;
      assert args[1] == Text("--live") && args[2] == Text("--format=daily");
    }
    if BuildRemediate(cr).Some? {
      var args := BuildRemediate(cr).value.body.job.args;
      assert args[0] == Text("remediate") && args[1] == Text("--live") && |args| <= 3;
    }
  }

  lemma FlagsPassed(flags: seq<string>)
    ensures forall f :: f in flags ==> Text(f) in Texts(flags)
  {
    forall f | f in flags ensures Text(f) in Texts(flags) {
      var i :| 0 <= i < |flags| && flags[i] == f;
      assert Texts(flags)[i] == Text(f);
    }
  }

  lemma WatcherModes(cr: Cr)
    requires WatcherEnabled(cr.spec)
    ensures Text("--live") in WatcherPod(cr).args && forall f :: f in cr.spec.watcher.value.flags ==> Text(f) in WatcherPod(cr).args
  {
    hide CommonLabels, AlertingEnv, ProtectedEnv, AlertingArgs;
    FlagsPassed(cr.spec.watcher.value.flags);
    assert WatcherPod(cr).args[1] == Text("--live");
  }

  lemma AiModes(cr: Cr)
    requires AiEnabled(cr.spec)
    ensures var ai, args := cr.spec.ai.value, AiPod(cr).args;
            && Text("--ai-endpoint=" + ai.endpoint) in args && Text("--ai-model=" + ai.model) in args
            && forall f :: f in ai.flags ==> Text(f) in args
  {
    hide CommonLabels, ProtectedEnv;
    FlagsPassed(cr.spec.ai.value.flags);
    assert AiPod(cr).args[1] == Text("--ai-endpoint=" + cr.spec.ai.value.endpoint);
    assert AiPod(cr).args[2] == Text("--ai-model=" + cr.spec.ai.value.model);
  }

  /** Schedules and retries are those given, a retry limit of zero included; runs never overlap, and none is created paused. */
  lemma SchedulesAreAsAsked(cr: Cr)
    ensures BuildDiagnose(cr).Some? ==>
              var b, d := BuildDiagnose(cr).value.body, cr.spec.diagnose.value;
              && (d.schedule != "" ==> b.schedule == d.schedule) && (d.schedule == "" ==> b.schedule == "0 9 * * *")
              && (d.backoffLimit == None ==> b.backoffLimit == 1) && (forall n :: d.backoffLimit == Some(n) ==> b.backoffLimit == n)
              && b.concurrency == "Forbid" && !b.suspend
    ensures BuildRemediate(cr).Some? ==>
              var b, m := BuildRemediate(cr).value.body, cr.spec.remediate.value;
              && (m.schedule != "" ==> b.schedule == m.schedule) && (m.schedule == "" ==> b.schedule == "*/30 * * * *")
              && b.backoffLimit == 1 && b.concurrency == "Forbid" && !b.suspend
  {
    hide CronPod;
  }

  // ---------- ports and front doors ----------

  predicate OnePort(ports: seq<ServicePort>, name: string, number: int) { ports == [ServicePort(name, number, name)] }

  /** A Service and the pods behind it speak of one port number: the one given, or the usual one. Metrics are scraped pod by pod. */
  lemma PortsAgree(cr: Cr)
    ensures BuildWebhookService(cr).Some? ==>
              var b, p := BuildWebhookService(cr).value.body, cr.spec.watcher.value.webhook.value.servicePort;
              var n := if p != 0 then p else 8090;
              OnePort(b.ports, "webhook", n) && Port("webhook", n) in BuildWatcher(cr).value.body.template.ports && b.clusterIp == ""
    ensures BuildMetricsService(cr).Some? ==>
              var b, p := BuildMetricsService(cr).value.body, cr.spec.ai.value.metrics.value.port;
              var n := if p != 0 then p else 9090;
              OnePort(b.ports, "metrics", n) && Port("metrics", n) in BuildAiWatch(cr).value.body.template.ports && b.clusterIp == "None"
    ensures BuildApprovalService(cr).Some? ==>
              var b := BuildApprovalService(cr).value.body;
              OnePort(b.ports, "http", 8443) && Port("http", 8443) in BuildApproval(cr).value.body.template.ports && b.clusterIp == ""
    ensures BuildRagService(cr).Some? ==>
              var b, ports := BuildRagService(cr).value.body, BuildRag(cr).value.body.template.ports;
              && b.ports == [ServicePort("http", 6333, "http"), ServicePort("grpc", 6334, "grpc")]
              && Port("http", 6333) in ports && Port("grpc", 6334) in ports && b.clusterIp == ""
  {
    hide CommonLabels, AlertingArgs, AlertingEnv, ProtectedEnv, StoreArgs;
    if WebhookServiceOn(cr.spec) { assert WatcherPod(cr).ports[1] in WatcherPod(cr).ports; }
    if MetricsOn(cr.spec) { assert AiPod(cr).ports[0] in AiPod(cr).ports; }
    if ApprovalEnabled(cr.spec) { assert ApprovalPod(cr).ports[0] in ApprovalPod(cr).ports; }
    if MemoryEnabled(cr.spec) { RagPorts(cr); }
    hide WatcherPod, AiPod, ApprovalPod;
  }

  lemma RagPorts(cr: Cr)
    requires MemoryEnabled(cr.spec)
    ensures var ports := BuildRag(cr).value.body.template.ports; Port("http", 6333) in ports && Port("grpc", 6334) in ports
  {
    hide CommonLabels;
    var ports := BuildRag(cr).value.body.template.ports;
    assert ports[0] in ports && ports[1] in ports;
  }

  /** What the Ingress and the policy let in is what the specification says, with a certificate exactly if one is asked for. */
  lemma DoorsAreAsAsked(cr: Cr)
    ensures BuildIngress(cr).Some? ==>
              var ing, d := cr.spec.approval.value.ingress.value, BuildIngress(cr).value;
              var rules := d.body.routes;
              && rules.host == ing.host && rules.className == ing.className && d.annotations == ing.annotations
              && (rules.tlsSecret.Some? <==> ing.tls.Some? && ing.tls.value.enabled)
              && (rules.tlsSecret.Some? ==>
                    rules.tlsSecret.value == if ing.tls.value.secretName != "" then ing.tls.value.secretName
                                             else cr.id.name + "-approval-server-tls")
    ensures BuildNetworkPolicy(cr).Some? ==>
              && BuildNetworkPolicy(cr).value.body.gateway == cr.spec.approval.value.netpol.value.gatewayNamespaceSelector
              && BuildNetworkPolicy(cr).value.body.port == 8443
  {
    hide CommonLabels;
    assert cr.id.name + "-approval-server" + "-tls" == cr.id.name + "-approval-server-tls";
  }

  /** The store keeps its data on the class and size asked for; what does not parse, and what is not asked for, is five gigabytes. */
  lemma StorageIsAsAsked(cr: Cr)
    ensures BuildRag(cr).Some? ==>
              var m, b := cr.spec.ai.value.memory.value, BuildRag(cr).value.body;
              && b.serviceName == cr.id.name + "-rag"
              && (m.size.Some? && m.size.value.text != "" && m.size.value.parses ==> b.claim == m.storageClass + "/" + m.size.value.text)
              && (!(m.size.Some? && m.size.value.text != "" && m.size.value.parses) ==> b.claim == m.storageClass + "/" + "5Gi")
  {
    hide CommonLabels;
  }

  /** The store writes its snapshots and temporary files where its data are, and runs under no account of the resource's. */
  lemma StoreKeepsToItself(cr: Cr)
    requires MemoryEnabled(cr.spec)
    ensures var p := BuildRag(cr).value.body.template;
            && (forall v :: v in p.env <==>
                  v == Value("QDRANT__STORAGE__SNAPSHOTS_PATH", "/qdrant/storage/snapshots")
                  || v == Value("QDRANT__STORAGE__TEMP_PATH", "/qdrant/storage/temp"))
            && p.serviceAccount == "" && p.args == []
    ensures BuildRag(cr).value.body.updateStrategy == ""
  {
    hide CommonLabels;
  }

  /** The config maps of the approval store are those named, or the usual two. */
  lemma MapsAreAsAsked(s: CrSpec, store: StoreSpec)
    requires s.approval.Some? && s.approval.value.store == Some(store)
    ensures store.replayConfigMap != "" ==> ReplayConfigMap(s) == store.replayConfigMap
    ensures store.replayConfigMap == "" ==> ReplayConfigMap(s) == "srenix-approval-replay"
    ensures store.runbookConfigMap != "" ==> RunbookConfigMap(s) == store.runbookConfigMap
    ensures store.runbookConfigMap == "" ==> RunbookConfigMap(s) == "srenix-approval-runbooks"
  {
  }

  // ---------- Slack ----------

  /** The variable is set from the channel's own Secret, under the key given or the usual one. */
  predicate SetFrom(env: seq<EnvVar>, variable: string, c: Channel) {
    FromSecret(variable, c.secretName, if c.secretKey != "" then c.secretKey else "WEBHOOK_URL") in env
  }

  /** Each channel that has a Secret reaches the one flag that is its own. */
  lemma ChannelsKeepApart(cr: Cr)
    requires cr.spec.slack.Some?
    ensures var slack := cr.spec.slack.value;
            && (BuildWatcher(cr).Some? && slack.alerts.Some? && slack.alerts.value.secretName != "" ==>
                  var p := BuildWatcher(cr).value.body.template;
                  FromEnv("--slack-alerts=", "SLACK_ALERTS_URL") in p.args && SetFrom(p.env, "SLACK_ALERTS_URL", slack.alerts.value))
            && (BuildWatcher(cr).Some? && slack.critical.Some? && slack.critical.value.secretName != "" ==>
                  var p := BuildWatcher(cr).value.body.template;
                  FromEnv("--slack-critical=", "SLACK_CRITICAL_URL") in p.args && SetFrom(p.env, "SLACK_CRITICAL_URL", slack.critical.value))
            && (BuildDiagnose(cr).Some? && slack.healthInfo.Some? && slack.healthInfo.value.secretName != "" ==>
                  var p := BuildDiagnose(cr).value.body.job;
                  FromEnv("--slack-healthinfo=", "SLACK_HEALTHINFO_URL") in p.args && SetFrom(p.env, "SLACK_HEALTHINFO_URL", slack.healthInfo.value))
    ensures BuildWatcher(cr).Some? ==>
              forall flag, v :: FromEnv(flag, v) in BuildWatcher(cr).value.body.template.args ==>
                (flag == "--slack-alerts=" && v == "SLACK_ALERTS_URL") || (flag == "--slack-critical=" && v == "SLACK_CRITICAL_URL")
  {
    hide CommonLabels, ProtectedEnv;
    SlackPieces(cr.spec);
    if WatcherEnabled(cr.spec) { WatcherSlack(cr); }
    hide WatcherPod, AlertingArgs, AlertingEnv;
    if BuildDiagnose(cr).Some? {
      var p := BuildDiagnose(cr).value.body.job;
      assert forall x :: x in HealthInfoArgs(cr.spec) ==> x in p.args;
      assert forall x :: x in HealthInfoEnv(cr.spec) ==> x in p.env;
    }
  }

  lemma SlackPieces(s: CrSpec)
    requires s.slack.Some?
    ensures var slack := s.slack.value;
            && (ChannelOn(slack.alerts) ==>
                  FromEnv("--slack-alerts=", "SLACK_ALERTS_URL") in AlertingArgs(s) && SetFrom(AlertingEnv(s), "SLACK_ALERTS_URL", slack.alerts.value))
            && (ChannelOn(slack.critical) ==>
                  && FromEnv("--slack-critical=", "SLACK_CRITICAL_URL") in AlertingArgs(s)
                  && SetFrom(AlertingEnv(s), "SLACK_CRITICAL_URL", slack.critical.value))
            && (ChannelOn(slack.healthInfo) ==>
                  && FromEnv("--slack-healthinfo=", "SLACK_HEALTHINFO_URL") in HealthInfoArgs(s)
                  && SetFrom(HealthInfoEnv(s), "SLACK_HEALTHINFO_URL", slack.healthInfo.value))
            && (forall flag, v :: FromEnv(flag, v) in AlertingArgs(s) ==>
                  (flag == "--slack-alerts=" && v == "SLACK_ALERTS_URL") || (flag == "--slack-critical=" && v == "SLACK_CRITICAL_URL"))
  {
  }

  lemma WatcherSlack(cr: Cr)
    requires WatcherEnabled(cr.spec)
    ensures forall x :: x in AlertingArgs(cr.spec) ==> x in WatcherPod(cr).args
    ensures forall x :: x in AlertingEnv(cr.spec) ==> x in WatcherPod(cr).env
    ensures forall flag, v :: FromEnv(flag, v) in WatcherPod(cr).args ==> FromEnv(flag, v) in AlertingArgs(cr.spec)
  {
    hide CommonLabels, ProtectedEnv, AlertingArgs, AlertingEnv, POD_ENV;
    var flags := Texts(cr.spec.watcher.value.flags);
    assert forall i :: 0 <= i < |flags| ==> flags[i].Text?;
    assert forall x :: x in flags ==> x.Text?;
  }

  // ---------- environment and labels ----------

  predicate KnowsItself(env: seq<EnvVar>) {
    FromField("MY_POD_NAMESPACE", "metadata.namespace") in env && FromField("MY_POD_NAME", "metadata.name") in env
  }

  /** The extra namespaces reach the pod, under the name its guard reads, if there are any. */
  predicate Warned(env: seq<EnvVar>, s: CrSpec) {
    s.protectedNamespaces != "" ==> Value("SRENIX_PROTECTED_NAMESPACES_EXTRA", s.protectedNamespaces) in env
  }

  /** Both watchers know their pods, and all that act are warned of the extra namespaces. */
  lemma EnvironmentsFit(cr: Cr)
    ensures BuildWatcher(cr).Some? ==> var env := BuildWatcher(cr).value.body.template.env; KnowsItself(env) && Warned(env, cr.spec)
    ensures BuildAiWatch(cr).Some? ==> var env := BuildAiWatch(cr).value.body.template.env; KnowsItself(env) && Warned(env, cr.spec)
    ensures BuildDiagnose(cr).Some? ==> Warned(BuildDiagnose(cr).value.body.job.env, cr.spec)
    ensures BuildRemediate(cr).Some? ==>
              var env := BuildRemediate(cr).value.body.job.env; Warned(env, cr.spec) && (cr.spec.protectedNamespaces == "" ==> env == [])
  {
    hide BuildDiagnose, BuildRemediate, WatcherPod, AiPod, CommonLabels;
    CronJobEnvironments(cr);
    if WatcherEnabled(cr.spec) { WatcherEnvironment(cr); }
    if AiEnabled(cr.spec) { AiEnvironment(cr); }
    hide Warned, KnowsItself;
  }

  /** The approval pods find the key where both their argument and their variable say, and the AI watcher where theirs do. */
  lemma KeyIsFound(cr: Cr)
    ensures BuildApproval(cr).Some? ==>
              exists path :: Value("SRENIX_SIGNING_KEY_PATH", path) in BuildApproval(cr).value.body.template.env && Handed(cr, "--signing-key-path=" + path)
    ensures BuildApproval(cr).Some? && BuildAiWatch(cr).Some? ==>
              forall v :: v in BuildApproval(cr).value.body.template.env ==> v in BuildAiWatch(cr).value.body.template.env
  {
    hide AiPod, CommonLabels, StoreArgs;
    if AiEnabled(cr.spec) { AiEnvironment(cr); }
    if ApprovalEnabled(cr.spec) { KeyPathFits(cr); }
    hide Handed, Warned, KnowsItself;
  }

  lemma KeyPathFits(cr: Cr)
    requires ApprovalEnabled(cr.spec)
    ensures BuildApproval(cr).value.body.template.env == SIGNING_KEY_ENV
    ensures exists path :: Value("SRENIX_SIGNING_KEY_PATH", path) in SIGNING_KEY_ENV && Handed(cr, "--signing-key-path=" + path)
  {
    KeyPathIs();
    KeyPathHanded(cr);
    hide ApprovalPod, Handed, SIGNING_KEY_ENV;
  }

  lemma KeyPathIs()
    ensures Value("SRENIX_SIGNING_KEY_PATH", "/etc/srenix/keys/signing.key") in SIGNING_KEY_ENV
    ensures "--signing-key-path=" + "/etc/srenix/keys/signing.key" == "--signing-key-path=/etc/srenix/keys/signing.key"
  {
    KeyPathVariable();
    hide SIGNING_KEY_ENV;
  }

  lemma KeyPathVariable()
    ensures Value("SRENIX_SIGNING_KEY_PATH", "/etc/srenix/keys/signing.key") in SIGNING_KEY_ENV
  {
    assert SIGNING_KEY_ENV[0] in SIGNING_KEY_ENV;
  }

  lemma KeyPathHanded(cr: Cr)
    requires ApprovalEnabled(cr.spec)
    ensures BuildApproval(cr).value.body.template.env == SIGNING_KEY_ENV
    ensures Handed(cr, "--signing-key-path=/etc/srenix/keys/signing.key")
  {
    hide CommonLabels, StoreArgs, AuditNamespace, SIGNING_KEY_ENV;
    var args := ApprovalPod(cr).args;
    assert args[2] in args;
  }

  lemma WatcherEnvironment(cr: Cr)
    requires WatcherEnabled(cr.spec)
    ensures KnowsItself(WatcherPod(cr).env) && Warned(WatcherPod(cr).env, cr.spec)
  {
    hide CommonLabels, AlertingArgs, AlertingEnv;
    PodKnowsItself();
    ProtectedWarns(cr.spec);
    hide POD_ENV, ProtectedEnv;
  }

  lemma PodKnowsItself()
    ensures KnowsItself(POD_ENV)
  {
    assert POD_ENV[0] in POD_ENV && POD_ENV[1] in POD_ENV;
  }

  lemma ProtectedWarns(s: CrSpec)
    ensures Warned(ProtectedEnv(s), s) && (s.protectedNamespaces == "" ==> ProtectedEnv(s) == [])
  {
  }

  lemma AiEnvironment(cr: Cr)
    requires AiEnabled(cr.spec)
    ensures KnowsItself(AiPod(cr).env) && Warned(AiPod(cr).env, cr.spec)
    ensures ApprovalEnabled(cr.spec) ==> forall v :: v in SIGNING_KEY_ENV ==> v in AiPod(cr).env
  {
    hide CommonLabels;
    PodKnowsItself();
    ProtectedWarns(cr.spec);
    hide POD_ENV, ProtectedEnv, SIGNING_KEY_ENV;
  }

  lemma CronJobEnvironments(cr: Cr)
    ensures BuildDiagnose(cr).Some? ==> Warned(BuildDiagnose(cr).value.body.job.env, cr.spec)
    ensures BuildRemediate(cr).Some? ==>
              var env := BuildRemediate(cr).value.body.job.env; Warned(env, cr.spec) && (cr.spec.protectedNamespaces == "" ==> env == [])
  {
    hide CommonLabels, HealthInfoArgs, HealthInfoEnv;
    ProtectedWarns(cr.spec);
    hide ProtectedEnv;
  }

  /** The child carries the common labels and this role. */
  predicate Plays(id: CrId, d: Option<Desired>, role: string) {
    d.Some? ==> CommonlyLabelled(id, d.value.labels) && Carries(d.value.labels, map["srenix.ai/role" := role])
  }

  /** The children are told apart by role; the Services that front a workload of another name have roles of their own. */
  lemma RolesPlayed(cr: Cr)
    ensures Plays(cr.id, BuildWatcher(cr), "watcher") && Plays(cr.id, BuildWebhookService(cr), "watcher-webhook")
    ensures Plays(cr.id, BuildDiagnose(cr), "diagnose") && Plays(cr.id, BuildRemediate(cr), "remediate")
    ensures Plays(cr.id, BuildAiWatch(cr), "aiwatch") && Plays(cr.id, BuildMetricsService(cr), "aiwatch-metrics")
    ensures Plays(cr.id, BuildRag(cr), "rag") && Plays(cr.id, BuildRagService(cr), "rag")
    ensures CommonlyLabelled(cr.id, BuildServiceAccount(cr).labels) && "srenix.ai/role" !in BuildServiceAccount(cr).labels
  {
    LabelsAre(cr.id, "watcher"); LabelsAre(cr.id, "watcher-webhook"); LabelsAre(cr.id, "diagnose"); LabelsAre(cr.id, "remediate");
    LabelsAre(cr.id, "aiwatch"); LabelsAre(cr.id, "aiwatch-metrics"); LabelsAre(cr.id, "rag");
    NoRoleLabel(cr.id);
    hide CommonLabels, CommonlyLabelled, Carries, WatcherPod, AiPod, CronPod;
  }

  /** All of approval, its namespaced roles included, plays one role. */
  lemma ApprovalRolesPlayed(cr: Cr)
    ensures Plays(cr.id, BuildApproval(cr), "approval-server") && Plays(cr.id, BuildApprovalService(cr), "approval-server")
    ensures Plays(cr.id, BuildApprovalServiceAccount(cr), "approval-server") && Plays(cr.id, BuildNetworkPolicy(cr), "approval-server")
    ensures Plays(cr.id, BuildIngress(cr), "approval-server")
    ensures forall p :: p in RolePairs(cr) ==> Plays(cr.id, Some(p.role), "approval-server") && Plays(cr.id, Some(p.binding), "approval-server")
  {
    LabelsAre(cr.id, "approval-server");
    hide CommonLabels, CommonlyLabelled, Carries, ApprovalPod;
  }

  lemma NoRoleLabel(id: CrId)
    ensures CommonlyLabelled(id, CommonLabels(id, "")) && "srenix.ai/role" !in CommonLabels(id, "")
  {
    LabelsAre(id, "");
    assert |NAME_LABEL| == 22 && |INSTANCE_LABEL| == 26 && |MANAGER_LABEL| == 28 && |"srenix.ai/role"| == 14;
  }

  /** The shared roles say whose they are and what they are for, and name no resource. */
  lemma SharedRolesAre()
    ensures var l := ReaderRole().labels; l == map["app.kubernetes.io/managed-by" := "srenix-operator", "app.kubernetes.io/name" := "agentic-sre",
                                                   "app.kubernetes.io/component" := "reader"]
    ensures FixerRole().labels == ReaderRole().labels["app.kubernetes.io/component" := "approval-fixer"]
    ensures ReaderRole().body == RoleBody(ReaderRules) && FixerRole().body == RoleBody(FixerRules)
  {
    assert |NAME_LABEL| == 22 && |COMPONENT_LABEL| == 27 && |MANAGER_LABEL| == 28;
  }

  /** The bindings to them say the same, and whom they are for. */
  lemma SharedBindingsAre(cr: Cr)
    ensures ReaderBinding(cr).labels
         == ReaderRole().labels["srenix.ai/managed-by-cr" := cr.id.name]["srenix.ai/cr-namespace" := cr.id.ns]
    ensures FixerBinding(cr).labels
         == FixerRole().labels["srenix.ai/managed-by-cr" := cr.id.name]["srenix.ai/cr-namespace" := cr.id.ns]
  {
  }

  // ---------- what is not said ----------

  /** What a specification leaves out, and what it says, of approval: the place of the audit trail and of the store, the key's Secret, the kind of store. */
  lemma ApprovalDefaults(id: CrId, s: CrSpec, a: ApprovalSpec)
    requires s.approval == Some(a)
    ensures AuditNamespace(id, s) == if a.auditNamespace == "" then id.ns else a.auditNamespace
    ensures SigningSecretName(s) == if a.signingSecretName == "" then "srenix-approval-signing-key" else a.signingSecretName
    ensures StoreBackend(s) == if a.store == None || a.store.value.backend == "" then "inmemory" else a.store.value.backend
    ensures StoreNamespace(id, s) == if a.store == None || a.store.value.namespace == "" then id.ns else a.store.value.namespace
  {
  }

  /** Metrics are served exactly if the AI watcher runs and is told where to serve them. */
  lemma MetricsExactly(cr: Cr)
    ensures BuildMetricsService(cr).Some?
            <==> BuildAiWatch(cr).Some? && exists addr, port :: cr.spec.ai.value.metrics == Some(MetricsSpec(addr, port)) && addr != ""
    ensures FINALIZER == "srenix.ai/operator-rbac"
  {
    hide AiPod, CommonLabels;
    if MetricsOn(cr.spec) { assert cr.spec.ai.value.metrics == Some(MetricsSpec(cr.spec.ai.value.metrics.value.addr, cr.spec.ai.value.metrics.value.port)); }
  }

  // ---------- health ----------

  /** Every watcher answers for its health, and takes in webhooks exactly if it is told where to listen. */
  lemma WatcherListens(cr: Cr)
    requires WatcherEnabled(cr.spec)
    ensures Port("health", 8081) in WatcherPod(cr).ports
    ensures (exists n :: Port("webhook", n) in WatcherPod(cr).ports)
            <==> cr.spec.watcher.value.webhook.Some? && cr.spec.watcher.value.webhook.value.listen != ""
  {
    hide CommonLabels, AlertingArgs, AlertingEnv, ProtectedEnv;
    var ports := WatcherPod(cr).ports;
    assert ports[0] in ports;
    if WebhookReceiverOn(cr.spec) { assert ports[1] in ports; }
  }

  /** What every child but the shared roles is labelled with. */
  predicate CommonlyLabelled(id: CrId, labels: Labels) {
    Carries(labels, map["app.kubernetes.io/name" := "agentic-sre", "app.kubernetes.io/instance" := id.name,
                        "app.kubernetes.io/managed-by" := "srenix-operator"])
  }

  lemma LabelsAre(id: CrId, role: string)
    ensures CommonlyLabelled(id, CommonLabels(id, role))
    ensures role != "" ==> Carries(CommonLabels(id, role), map["srenix.ai/role" := role])
  {
    assert |NAME_LABEL| == 22 && |INSTANCE_LABEL| == 26 && |MANAGER_LABEL| == 28 && |ROLE_LABEL| == 14;
  }
}
