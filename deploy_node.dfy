/**
 * The editing state of a deploy node on the workflow canvas
 * (ui/src/components/workflow/node/DeployNode.tsx): confirming the config drawer
 * replaces the node's config by the form's values and marks the node validated; a
 * pending flag covers the confirmation; the drawer's footer is shown exactly when a
 * deploy provider is chosen; and a node not yet validated shows a prompt to
 * configure it. The form's validation and the workflow store's update are not part
 * of this model: their outcomes arrive as parameters and results.
 */
module DeployNode {
  import opened Wrappers
  import opened Values
  import opened Workflow

  // ---------------------------------------------------------------------------
  // Pure parts

  /** JavaScript truthiness of a possibly undefined value, as `!!v` computes it. */
  function Truthy(v: Option<Value>): (b: bool)
    ensures v.None? || v == Some(Null) ==> !b
    ensures v.Some? && v.value.Str? ==> (b <==> v.value.s != "")
    ensures v.Some? && (v.value.List? || v.value.Object?) ==> b
  {
    match v
    case None => false
    case Some(Null) => false
    case Some(Bool(b)) => b
    case Some(Num(n)) => n != 0
    case Some(Str(s)) => s != ""
    case Some(List(_)) => true
    case Some(Object(_)) => true
  }

  /** The `provider` entry of a config, undefined when absent. */
  function ProviderEntry(config: Config): (r: Option<Value>)
    ensures r.Some? <==> "provider" in config
    ensures r.Some? ==> r.value == config["provider"]
  {
    if "provider" in config then Some(config["provider"]) else None
  }

  /** Whether the drawer shows its footer for a config: a provider is chosen. */
  function FooterVisible(config: Config): (b: bool)
    ensures b ==> "provider" in config
  {
    Truthy(ProviderEntry(config))
  }

  /** With a string provider, the footer shows exactly when the string is not empty. */
  lemma FooterVisibleForStringProvider(config: Config, provider: string)
    requires "provider" in config && config["provider"] == Str(provider)
    ensures FooterVisible(config) <==> provider != ""
  {
  }

  /** With no provider entry, or an empty one, the footer is hidden. */
  lemma FooterHiddenWithoutProvider(config: Config)
    requires "provider" !in config || config["provider"] in {Null, Str("")}
    ensures !FooterVisible(config)
  {
  }

  /** What the node block shows: the configure prompt, or the chosen provider. */
  datatype Summary = ConfigurePrompt | ProviderSummary(provider: Option<Value>)

  function SummaryOf(n: Node): (s: Summary)
    ensures s == ConfigurePrompt <==> !n.validated
  {
    if !n.validated then ConfigurePrompt else ProviderSummary(ProviderEntry(n.config))
  }

  /** A node not yet validated shows the prompt whatever its config holds. */
  lemma UnvalidatedShowsPrompt(n: Node, config: Config)
    requires !n.validated
    ensures SummaryOf(n) == ConfigurePrompt
    ensures SummaryOf(WithConfig(n, config)) == ConfigurePrompt
  {
  }

  /**
   * The node the drawer's confirmation hands to the store: the node with its config
   * replaced by a copy of the form's values and marked validated.
   */
  function ConfirmedNode(n: Node, values: Config): (r: Node)
    ensures r.config == values && r.validated
    ensures r.id == n.id && r.nodeType == n.nodeType && r.name == n.name
    ensures r.inputs == n.inputs && r.outputs == n.outputs
    ensures r.next == n.next && r.branches == n.branches
  {
    n.(config := values, validated := true)
  }

  /** The config is replaced, not merged: no entry of the old config survives unless the form has it. */
  lemma ConfirmReplacesWholesale(n: Node, values: Config, k: string)
    ensures k in ConfirmedNode(n, values).config <==> k in values
    ensures k in values ==> ConfirmedNode(n, values).config[k] == values[k]
  {
  }

  /** Confirming depends only on the form's values: the old config and flag do not matter. */
  lemma ConfirmForgetsOldConfig(n: Node, old1: Config, old2: Config, values: Config, flag: bool)
    ensures ConfirmedNode(n.(config := old1, validated := flag), values)
      == ConfirmedNode(n.(config := old2), values)
  {
  }

  /** Confirming the same values twice is confirming them once. */
  lemma ConfirmIdempotent(n: Node, values: Config)
    ensures ConfirmedNode(ConfirmedNode(n, values), values) == ConfirmedNode(n, values)
  {
  }

  /** A confirmed node shows its provider, and no longer the prompt. */
  lemma ConfirmedShowsProvider(n: Node, values: Config)
    ensures SummaryOf(ConfirmedNode(n, values)) == ProviderSummary(ProviderEntry(values))
  {
  }

  /** A deploy config confirmed from the form is read back unchanged by GetConfigForDeploy. */
  lemma ConfirmedDeployConfigReadsBack(acc: Accessors, n: Node, c: DeployConfig)
    requires ReadsBack(acc)
    ensures GetConfigForDeploy(acc, ConfirmedNode(n, DeployConfigMap(c))) == c
  {
    DeployConfigRoundTrip(acc, n, c);
    ExtractorsDependOnlyOnConfig(acc, ConfirmedNode(n, DeployConfigMap(c)), WithConfig(n, DeployConfigMap(c)));
  }

  // ---------------------------------------------------------------------------
  // The component state

  class DeployNodeState {
    /** The node the component renders. */
    var node: Node
    var formPending: bool
    var drawerOpen: bool
    var drawerFooterShow: bool

    /** Mounting: the drawer is closed, nothing is pending, and the effect sets the footer. */
    constructor (n: Node)
      ensures node == n && !formPending && !drawerOpen
      ensures drawerFooterShow == FooterVisible(n.config)
    {
      node := n;
      formPending := false;
      drawerOpen := false;
      drawerFooterShow := FooterVisible(n.config);
    }

    /**
     * The drawer's confirm button. `validates` is the form's verdict and `values`
     * its field values. Returns the node handed to the store's update, if any. The
     * pending flag is raised for the confirmation and lowered on every path.
     */
    method HandleDrawerConfirm(validates: bool, values: Config) returns (updated: Option<Node>)
      modifies this
      ensures !validates ==> updated == None
      ensures validates ==> updated == Some(ConfirmedNode(old(node), values))
      ensures !formPending
      ensures node == old(node) && drawerOpen == old(drawerOpen)
      ensures drawerFooterShow == old(drawerFooterShow)
    {
      formPending := true;
      if !validates {
        formPending := false;
        return None;
      }
      updated := Some(ConfirmedNode(node, values));
      formPending := false;
    }

    /** The form's values change: the footer follows the provider just chosen. */
    method HandleFormValuesChange(values: Config)
      modifies this
      ensures drawerFooterShow == FooterVisible(values)
      ensures node == old(node) && formPending == old(formPending) && drawerOpen == old(drawerOpen)
    {
      drawerFooterShow := FooterVisible(values);
    }

    /** The drawer opens or closes; closing resets the footer to the node's own provider. */
    method HandleOpenChange(open: bool)
      modifies this
      ensures drawerOpen == open
      ensures !open ==> drawerFooterShow == FooterVisible(node.config)
      ensures open ==> drawerFooterShow == old(drawerFooterShow)
      ensures node == old(node) && formPending == old(formPending)
    {
      drawerOpen := open;
      if !open {
        drawerFooterShow := FooterVisible(node.config);
      }
    }

    /** Clicking the node block opens the drawer. */
    method HandleBlockClick()
      modifies this
      ensures drawerOpen
      ensures node == old(node) && formPending == old(formPending)
      ensures drawerFooterShow == old(drawerFooterShow)
    {
      drawerOpen := true;
    }

    /**
     * The component renders a new node. The footer effect runs only when the
     * node's provider entry changed, and then sets the footer from it.
     */
    method ReceiveNode(n: Node)
      modifies this
      ensures node == n
      ensures ProviderEntry(n.config) != ProviderEntry(old(node).config) ==>
        drawerFooterShow == FooterVisible(n.config)
      ensures ProviderEntry(n.config) == ProviderEntry(old(node).config) ==>
        drawerFooterShow == old(drawerFooterShow)
      ensures formPending == old(formPending) && drawerOpen == old(drawerOpen)
    {
      if ProviderEntry(n.config) != ProviderEntry(node.config) {
        drawerFooterShow := FooterVisible(n.config);
      }
      node := n;
    }
  }
}
