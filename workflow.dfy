/**
 * The workflow domain of internal/domain/workflow.go: the closed node-type and
 * trigger-type enumerations, the recursive workflow node, and the extractors that
 * turn a node's dynamic `Config` map into the typed configuration of an apply, a
 * deploy or a notify step.
 *
 * The three typed readers `maps.GetValueAsString`, `maps.GetValueAsBool` and
 * `maps.GetValueAsInt32` are not part of this model: they are passed in as an
 * `Accessors` value, and the properties that depend on how they behave are stated
 * under hypotheses named `KeyLocal` and `ReadsBack`.
 */
module Workflow {
  import opened Wrappers
  import opened Values

  /** A `map[string]any`. */
  type Config = Obj

  /** Go's int32. */
  newtype int32 = x: int | -0x8000_0000 <= x < 0x8000_0000

  // ---------------------------------------------------------------------------
  // Enumerations

  /** WorkflowNodeType values. */
  datatype NodeType =
    | Start | End | Apply | Deploy | Notify | Branch | Condition
    | ExecuteResultBranch | ExecuteSuccess | ExecuteFailure

  function NodeTypeTag(t: NodeType): string {
    match t
    case Start => "start"
    case End => "end"
    case Apply => "apply"
    case Deploy => "deploy"
    case Notify => "notify"
    case Branch => "branch"
    case Condition => "condition"
    case ExecuteResultBranch => "execute_result_branch"
    case ExecuteSuccess => "execute_success"
    case ExecuteFailure => "execute_failure"
  }

  /** The ten node-type tags, in declaration order. */
  const NodeTypeTags: seq<string> := [
    "start", "end", "apply", "deploy", "notify", "branch", "condition",
    "execute_result_branch", "execute_success", "execute_failure"
  ]

  /** The node type a tag names, if it names one. */
  function ParseNodeType(s: string): (r: Option<NodeType>)
    ensures r.Some? <==> s in NodeTypeTags
    ensures r.Some? ==> NodeTypeTag(r.value) == s
  {
    if s == "start" then Some(Start)
    else if s == "end" then Some(End)
    else if s == "apply" then Some(Apply)
    else if s == "deploy" then Some(Deploy)
    else if s == "notify" then Some(Notify)
    else if s == "branch" then Some(Branch)
    else if s == "condition" then Some(Condition)
    else if s == "execute_result_branch" then Some(ExecuteResultBranch)
    else if s == "execute_success" then Some(ExecuteSuccess)
    else if s == "execute_failure" then Some(ExecuteFailure)
    else None
  }

  /** Every node type has a listed tag that names it back: the set of node types is closed. */
  lemma NodeTypeTagRoundTrip(t: NodeType)
    ensures NodeTypeTag(t) in NodeTypeTags
    ensures ParseNodeType(NodeTypeTag(t)) == Some(t)
  {
  }

  /** Different node types have different tags. */
  lemma NodeTypeTagInjective(t: NodeType, u: NodeType)
    requires NodeTypeTag(t) == NodeTypeTag(u)
    ensures t == u
  {
    NodeTypeTagRoundTrip(t);
    NodeTypeTagRoundTrip(u);
  }

  /** WorkflowTriggerType values. */
  datatype TriggerType = Auto | Manual

  function TriggerTypeTag(t: TriggerType): string {
    match t
    case Auto => "auto"
    case Manual => "manual"
  }

  function ParseTriggerType(s: string): (r: Option<TriggerType>)
    ensures r.Some? <==> s in ["auto", "manual"]
    ensures r.Some? ==> TriggerTypeTag(r.value) == s
  {
    if s == "auto" then Some(Auto) else if s == "manual" then Some(Manual) else None
  }

  lemma TriggerTypeTagRoundTrip(t: TriggerType)
    ensures ParseTriggerType(TriggerTypeTag(t)) == Some(t)
  {
  }

  // ---------------------------------------------------------------------------
  // Records

  datatype ValueSelector = ValueSelector(id: string, name: string)

  /** WorkflowNodeIO: a declared input or output of a node. */
  datatype NodeIO = NodeIO(
    ioLabel: string,
    name: string,
    ioType: string,
    required: bool,
    value: Value,
    valueSelector: ValueSelector)

  /**
   * WorkflowNode. The type is kept as the decoded string, as in Go, where any string
   * can be stored in a `WorkflowNodeType`; `ParseNodeType` says which ones are known.
   * `next` is the optional successor and `branches` the nested sub-flows.
   */
  datatype Node = Node(
    id: string,
    nodeType: string,
    name: string,
    config: Config,
    inputs: seq<NodeIO>,
    outputs: seq<NodeIO>,
    next: Option<Node>,
    branches: seq<Node>,
    validated: bool)

  /** Workflow, without its time stamps. */
  datatype Workflow = Workflow(
    id: string,
    name: string,
    description: string,
    trigger: string,
    triggerCron: string,
    enabled: bool,
    content: Option<Node>,
    draft: Option<Node>,
    hasDraft: bool,
    lastRunId: string,
    lastRunStatus: string)

  /** WorkflowNodeConfigForApply. */
  datatype ApplyConfig = ApplyConfig(
    domains: string,
    contactEmail: string,
    provider: string,
    providerAccessId: string,
    providerConfig: Config,
    keyAlgorithm: string,
    nameservers: string,
    dnsPropagationTimeout: int32,
    dnsTTL: int32,
    disableFollowCNAME: bool,
    disableARI: bool,
    skipBeforeExpiryDays: int32)

  /** WorkflowNodeConfigForDeploy. */
  datatype DeployConfig = DeployConfig(
    certificate: string,
    provider: string,
    providerAccessId: string,
    providerConfig: Config,
    skipOnLastSucceeded: bool)

  /** WorkflowNodeConfigForNotify. */
  datatype NotifyConfig = NotifyConfig(channel: string, subject: string, message: string)

  // ---------------------------------------------------------------------------
  // Config accessors

  /** The typed readers of a config entry: `maps.GetValueAsString`, `…AsBool`, `…AsInt32`. */
  datatype Accessors = Accessors(
    asString: (Config, string) -> string,
    asBool: (Config, string) -> bool,
    asInt32: (Config, string) -> int32)

  /** Hypothesis: each reader looks only at the entry for the key it is given. */
  ghost predicate KeyLocal(acc: Accessors) {
    forall m1, m2, k :: SameEntry(m1, m2, k) ==>
      && acc.asString(m1, k) == acc.asString(m2, k)
      && acc.asBool(m1, k) == acc.asBool(m2, k)
      && acc.asInt32(m1, k) == acc.asInt32(m2, k)
  }

  /** Hypothesis: a value of the reader's own type is read back as stored. */
  ghost predicate ReadsBack(acc: Accessors) {
    && (forall m: Config, k :: k in m && m[k].Str? ==> acc.asString(m, k) == m[k].s)
    && (forall m: Config, k :: k in m && m[k].Bool? ==> acc.asBool(m, k) == m[k].b)
    && (forall m: Config, k :: k in m && m[k].Num? && -0x8000_0000 <= m[k].n < 0x8000_0000 ==>
          acc.asInt32(m, k) as int == m[k].n)
  }

  /** getConfigValueAsMap: the nested map stored under key, or a fresh empty map. */
  function ConfigValueAsMap(config: Config, key: string): (r: Config)
    ensures key in config && config[key].Object? ==> r == config[key].fields
    ensures !(key in config && config[key].Object?) ==> r == map[]
  {
    if key in config then
      match config[key]
      case Object(fields) => fields
      case _ => map[]
    else map[]
  }

  /** The stored value, or the default 30 when the stored value reads as 0. */
  function SkipBeforeExpiryDaysOrDefault(stored: int32): (days: int32)
    ensures days != 0
    ensures stored != 0 ==> days == stored
  {
    if stored == 0 then 30 else stored
  }

  // ---------------------------------------------------------------------------
  // Extractors

  /** GetConfigForApply: each field from its same-named key; only skipBeforeExpiryDays has a default. */
  function GetConfigForApply(acc: Accessors, n: Node): (c: ApplyConfig)
    ensures c.skipBeforeExpiryDays != 0
    ensures acc.asInt32(n.config, "skipBeforeExpiryDays") == 0 ==> c.skipBeforeExpiryDays == 30
    ensures acc.asInt32(n.config, "skipBeforeExpiryDays") != 0 ==>
      c.skipBeforeExpiryDays == acc.asInt32(n.config, "skipBeforeExpiryDays")
    ensures c.domains == acc.asString(n.config, "domains")
    ensures c.providerConfig == ConfigValueAsMap(n.config, "providerConfig")
    ensures c.dnsTTL == acc.asInt32(n.config, "dnsTTL")
  {
    ApplyConfig(
      domains := acc.asString(n.config, "domains"),
      contactEmail := acc.asString(n.config, "contactEmail"),
      provider := acc.asString(n.config, "provider"),
      providerAccessId := acc.asString(n.config, "providerAccessId"),
      providerConfig := ConfigValueAsMap(n.config, "providerConfig"),
      keyAlgorithm := acc.asString(n.config, "keyAlgorithm"),
      nameservers := acc.asString(n.config, "nameservers"),
      dnsPropagationTimeout := acc.asInt32(n.config, "dnsPropagationTimeout"),
      dnsTTL := acc.asInt32(n.config, "dnsTTL"),
      disableFollowCNAME := acc.asBool(n.config, "disableFollowCNAME"),
      disableARI := acc.asBool(n.config, "disableARI"),
      skipBeforeExpiryDays := SkipBeforeExpiryDaysOrDefault(acc.asInt32(n.config, "skipBeforeExpiryDays")))
  }

  /** GetConfigForDeploy. */
  function GetConfigForDeploy(acc: Accessors, n: Node): (c: DeployConfig)
    ensures c.providerConfig == ConfigValueAsMap(n.config, "providerConfig")
  {
    DeployConfig(
      certificate := acc.asString(n.config, "certificate"),
      provider := acc.asString(n.config, "provider"),
      providerAccessId := acc.asString(n.config, "providerAccessId"),
      providerConfig := ConfigValueAsMap(n.config, "providerConfig"),
      skipOnLastSucceeded := acc.asBool(n.config, "skipOnLastSucceeded"))
  }

  /** GetConfigForNotify. */
  function GetConfigForNotify(acc: Accessors, n: Node): (c: NotifyConfig)
    ensures c.channel == acc.asString(n.config, "channel")
  {
    NotifyConfig(
      channel := acc.asString(n.config, "channel"),
      subject := acc.asString(n.config, "subject"),
      message := acc.asString(n.config, "message"))
  }

  const ApplyKeys: set<string> := {
    "domains", "contactEmail", "provider", "providerAccessId", "providerConfig", "keyAlgorithm",
    "nameservers", "dnsPropagationTimeout", "dnsTTL", "disableFollowCNAME", "disableARI",
    "skipBeforeExpiryDays"
  }

  const DeployKeys: set<string> := {
    "certificate", "provider", "providerAccessId", "providerConfig", "skipOnLastSucceeded"
  }

  const NotifyKeys: set<string> := {"channel", "subject", "message"}

  /** The nested-map reader looks only at its own key. */
  lemma ConfigValueAsMapIsLocal(m1: Config, m2: Config, key: string)
    requires SameEntry(m1, m2, key)
    ensures ConfigValueAsMap(m1, key) == ConfigValueAsMap(m2, key)
  {
  }

  /** Two nodes whose configs agree on the apply keys yield the same apply config. */
  lemma {:induction false} ApplyReadsOnlyItsKeys(acc: Accessors, n1: Node, n2: Node)
    requires KeyLocal(acc)
    requires AgreeOn(n1.config, n2.config, ApplyKeys)
    ensures GetConfigForApply(acc, n1) == GetConfigForApply(acc, n2)
  {
    var m1, m2 := n1.config, n2.config;
    forall k | k in ApplyKeys ensures acc.asString(m1, k) == acc.asString(m2, k)
      && acc.asBool(m1, k) == acc.asBool(m2, k) && acc.asInt32(m1, k) == acc.asInt32(m2, k)
    {
      assert SameEntry(m1, m2, k);
    }
    ConfigValueAsMapIsLocal(m1, m2, "providerConfig");
  }

  /** Two nodes whose configs agree on the deploy keys yield the same deploy config. */
  lemma {:induction false} DeployReadsOnlyItsKeys(acc: Accessors, n1: Node, n2: Node)
    requires KeyLocal(acc)
    requires AgreeOn(n1.config, n2.config, DeployKeys)
    ensures GetConfigForDeploy(acc, n1) == GetConfigForDeploy(acc, n2)
  {
    var m1, m2 := n1.config, n2.config;
    forall k | k in DeployKeys ensures acc.asString(m1, k) == acc.asString(m2, k)
      && acc.asBool(m1, k) == acc.asBool(m2, k)
    {
      assert SameEntry(m1, m2, k);
    }
    ConfigValueAsMapIsLocal(m1, m2, "providerConfig");
  }

  /** Two nodes whose configs agree on channel, subject and message yield the same notify config. */
  lemma {:induction false} NotifyReadsOnlyItsKeys(acc: Accessors, n1: Node, n2: Node)
    requires KeyLocal(acc)
    requires AgreeOn(n1.config, n2.config, NotifyKeys)
    ensures GetConfigForNotify(acc, n1) == GetConfigForNotify(acc, n2)
  {
    var m1, m2 := n1.config, n2.config;
    forall k | k in NotifyKeys ensures acc.asString(m1, k) == acc.asString(m2, k) {
      assert SameEntry(m1, m2, k);
    }
  }

  /** The extractors see a node's config only: id, type, name, links and the flag do not matter. */
  lemma ExtractorsDependOnlyOnConfig(acc: Accessors, n1: Node, n2: Node)
    requires n1.config == n2.config
    ensures GetConfigForApply(acc, n1) == GetConfigForApply(acc, n2)
    ensures GetConfigForDeploy(acc, n1) == GetConfigForDeploy(acc, n2)
    ensures GetConfigForNotify(acc, n1) == GetConfigForNotify(acc, n2)
  {
  }

  // ---------------------------------------------------------------------------
  // Writing a typed config back into a map

  /** The config map that stores every field of an apply config under its JSON name. */
  function ApplyConfigMap(c: ApplyConfig): Config {
    map[
      "domains" := Str(c.domains),
      "contactEmail" := Str(c.contactEmail),
      "provider" := Str(c.provider),
      "providerAccessId" := Str(c.providerAccessId),
      "providerConfig" := Object(c.providerConfig),
      "keyAlgorithm" := Str(c.keyAlgorithm),
      "nameservers" := Str(c.nameservers),
      "dnsPropagationTimeout" := Num(c.dnsPropagationTimeout as int),
      "dnsTTL" := Num(c.dnsTTL as int),
      "disableFollowCNAME" := Bool(c.disableFollowCNAME),
      "disableARI" := Bool(c.disableARI),
      "skipBeforeExpiryDays" := Num(c.skipBeforeExpiryDays as int)]
  }

  function DeployConfigMap(c: DeployConfig): Config {
    map[
      "certificate" := Str(c.certificate),
      "provider" := Str(c.provider),
      "providerAccessId" := Str(c.providerAccessId),
      "providerConfig" := Object(c.providerConfig),
      "skipOnLastSucceeded" := Bool(c.skipOnLastSucceeded)]
  }

  function NotifyConfigMap(c: NotifyConfig): Config {
    map["channel" := Str(c.channel), "subject" := Str(c.subject), "message" := Str(c.message)]
  }

  /** A node that differs from n only in its config. */
  function WithConfig(n: Node, config: Config): (r: Node)
    ensures r.config == config && r.id == n.id && r.nodeType == n.nodeType && r.name == n.name
    ensures r.inputs == n.inputs && r.outputs == n.outputs
    ensures r.next == n.next && r.branches == n.branches && r.validated == n.validated
  {
    n.(config := config)
  }

  /** The string entries of an apply config's map. */
  lemma ApplyConfigMapStrings(c: ApplyConfig)
    ensures var m := ApplyConfigMap(c);
      && m["domains"] == Str(c.domains) && m["contactEmail"] == Str(c.contactEmail)
      && m["provider"] == Str(c.provider) && m["providerAccessId"] == Str(c.providerAccessId)
      && m["keyAlgorithm"] == Str(c.keyAlgorithm) && m["nameservers"] == Str(c.nameservers)
  {
  }

  /** The other entries of an apply config's map. */
  lemma ApplyConfigMapOthers(c: ApplyConfig)
    ensures var m := ApplyConfigMap(c);
      && m["providerConfig"] == Object(c.providerConfig)
      && m["dnsPropagationTimeout"] == Num(c.dnsPropagationTimeout as int)
      && m["dnsTTL"] == Num(c.dnsTTL as int)
      && m["disableFollowCNAME"] == Bool(c.disableFollowCNAME)
      && m["disableARI"] == Bool(c.disableARI)
      && m["skipBeforeExpiryDays"] == Num(c.skipBeforeExpiryDays as int)
  {
  }

  /**
   * Storing an apply config and reading it back gives it back, except that a stored
   * skipBeforeExpiryDays of 0 comes back as the default 30.
   */
  lemma {:induction false} ApplyConfigRoundTrip(acc: Accessors, n: Node, c: ApplyConfig)
    requires ReadsBack(acc)
    ensures GetConfigForApply(acc, WithConfig(n, ApplyConfigMap(c))) ==
      c.(skipBeforeExpiryDays := if c.skipBeforeExpiryDays == 0 then 30 else c.skipBeforeExpiryDays)
  {
    ApplyConfigMapStrings(c);
    ApplyConfigMapOthers(c);
  }

  /** Storing a deploy config and reading it back gives it back. */
  lemma {:induction false} DeployConfigRoundTrip(acc: Accessors, n: Node, c: DeployConfig)
    requires ReadsBack(acc)
    ensures GetConfigForDeploy(acc, WithConfig(n, DeployConfigMap(c))) == c
  {
    var m := DeployConfigMap(c);
    assert acc.asString(m, "certificate") == c.certificate;
    assert acc.asString(m, "provider") == c.provider;
    assert acc.asString(m, "providerAccessId") == c.providerAccessId;
    assert acc.asBool(m, "skipOnLastSucceeded") == c.skipOnLastSucceeded;
  }

  /** Storing a notify config and reading it back gives it back. */
  lemma {:induction false} NotifyConfigRoundTrip(acc: Accessors, n: Node, c: NotifyConfig)
    requires ReadsBack(acc)
    ensures GetConfigForNotify(acc, WithConfig(n, NotifyConfigMap(c))) == c
  {
    var m := NotifyConfigMap(c);
    assert acc.asString(m, "channel") == c.channel;
    assert acc.asString(m, "subject") == c.subject;
    assert acc.asString(m, "message") == c.message;
  }
}
