# certimate domain core in Dafny

This project models the domain layer of certimate, a tool that issues and deploys
TLS certificates through user-built workflows. It models these parts:

- **Provider catalog** (`Providers`). The three string enumerations of providers are
  modelled: access credentials, ACME DNS-01 solvers and deploy targets. Three documented
  rules are proved about them:
  - each list is in strict ASCII order;
  - the part of every DNS or deploy tag before its first dash is an access-provider tag;
  - five legacy DNS tags stand for canonical dashed tags.
- **Workflow records** (`Workflow`). This covers:
  - the node-type and trigger-type enumerations;
  - the recursive workflow node and the workflow record;
  - the readers that turn a node's dynamic `config` map into typed apply, deploy and
    notify configs, including the rule that a stored `skipBeforeExpiryDays` of 0 reads as 30.
- **Access configs** (`Access`). The tagged union of credential config types has one
  record per provider, with `Option` for optional properties. The model shows that:
  - a config object decodes to a record exactly when it has the provider's object type;
  - extra keys are tolerated;
  - encoding and decoding is a round trip;
  - the union leaves out `AccessConfigForNS1`.
- **Credential forms** (`CredentialForms`). This is the validator of the VolcEngine and
  BytePlus credential forms. Each property must be a string, which is trimmed as
  `String.prototype.trim` does. The trimmed value must then be 1 to 64 UTF-16 code units long.
- **Workflow list page** (`WorkflowList`). A class holds the page state: its rows, the
  total, the state filter and the pagination. Its methods are the enable switch, delete,
  the filter menu and paging. Row numbers and the list request's `enabled` filter are
  functions.
- **Deploy node** (`DeployNode`). This covers:
  - the pure transformation that confirming the config drawer applies to a node;
  - the footer-visibility and summary rules;
  - a class for the component state: the pending flag, the drawer and the footer.

`Wrappers` holds `Option`/`Result`, and `Values` holds the dynamic JSON-like `Value`
shared by the Go `map[string]any` and the TypeScript objects.

Four behaviours of the code are easy to miss:

- In `ui/src/domain/access.ts` an SSH config may have neither a password nor a key:
  both are optional, and so they are here.
- Confirming a deploy node's drawer sets the node's `validated` flag to `true`
  directly. Nothing recomputes it from the config.
- The list page checks a workflow's graph only when a disabled workflow is switched
  on. An enabled workflow is never checked by it.
- The credential forms use their zod schema only as a validation rule. What they hand
  back to their caller is the raw field values, whose whitespace is not trimmed.

## Model

| member | source | states |
|---|---|---|
| Providers.AsciiLessTransitive | internal/domain/provider.go:8-9 | the ASCII order on tags is transitive (with AsciiLessIrreflexive: a strict order) |
| Providers.AscendingFromIsSorted | internal/domain/provider.go:8-9 | a list whose adjacent pairs ascend is strictly sorted throughout |
| Providers.SortedIsDistinct | internal/domain/provider.go:8-9 | a strictly sorted list has no duplicate tags |
| Providers.AccessProvidersSorted | internal/domain/provider.go:8-34 | the 23 access-provider tags are strictly ASCII-ascending and distinct |
| Providers.ApplyDnsProvidersSorted | internal/domain/provider.go:43-64 | the 18 DNS-provider tags are strictly ASCII-ascending and distinct |
| Providers.DeployProvidersSorted | internal/domain/provider.go:73-107 | the 31 deploy-target tags are strictly ASCII-ascending and distinct |
| Providers.BeforeDash | internal/domain/provider.go:41 | the result is a dash-free prefix of the tag, followed in the tag by a dash when shorter |
| Providers.BeforeDashOfExtension | internal/domain/provider.go:41 | a tag that is a dash-free name, alone or followed by a dash, has that name before its dash |
| Providers.DnsTagsStartWithAccessProvider | internal/domain/provider.go:41-64 | for every DNS tag, the text before the first dash (or the whole tag) is an access-provider tag |
| Providers.DeployTagsStartWithAccessProvider | internal/domain/provider.go:71-107 | for every deploy tag, the text before the first dash (or the whole tag) is an access-provider tag |
| Providers.NormalizeDns | internal/domain/provider.go:48-63 | only a dash-free tag is moved, and it is moved to a longer tag containing a dash |
| Providers.NormalizeDnsStaysInCatalog | internal/domain/provider.go:48-63 | normalising a catalog DNS tag yields a catalog DNS tag |
| Providers.NormalizeDnsIdempotent | internal/domain/provider.go:48-63 | normalising twice is normalising once |
| Providers.NormalizeDnsMovesLegacyTags | internal/domain/provider.go:48-64 | only the legacy tags move, and each legacy tag and its canonical tag are both in the DNS catalog |
| Providers.NormalizeDnsExtendsLegacyTags | internal/domain/provider.go:48-63 | a moved tag is dash-free, and its canonical tag is that tag followed by a dash and a suffix |
| Providers.NormalizeDnsKeepsPrefix | internal/domain/provider.go:41-63 | normalising never changes the access provider before the dash |
| Workflow.ParseNodeType | internal/domain/workflow.go:26-39 | a string names a node type exactly when it is one of the ten tags, and it names the type whose tag it is |
| Workflow.NodeTypeTagRoundTrip | internal/domain/workflow.go:28-39 | every node type has a listed tag that parses back to it: the set is closed |
| Workflow.NodeTypeTagInjective | internal/domain/workflow.go:28-39 | different node types have different tags |
| Workflow.ParseTriggerType | internal/domain/workflow.go:41-46 | a string names a trigger type exactly when it is `auto` or `manual` |
| Workflow.TriggerTypeTagRoundTrip | internal/domain/workflow.go:43-46 | each trigger type's tag parses back to it |
| Workflow.ConfigValueAsMap | internal/domain/workflow.go:104-112 | the stored map when the key is present and holds a map, otherwise a fresh empty map (never nil) |
| Workflow.ConfigValueAsMapIsLocal | internal/domain/workflow.go:104-112 | the nested-map reader depends only on the entry under its own key |
| Workflow.SkipBeforeExpiryDaysOrDefault | internal/domain/workflow.go:115-118 | the result is never 0, and a non-zero stored value is kept unchanged |
| Workflow.GetConfigForApply | internal/domain/workflow.go:114-134 | skipBeforeExpiryDays is 30 when the stored value reads as 0 and the stored value otherwise; providerConfig is the never-nil nested map |
| Workflow.GetConfigForDeploy | internal/domain/workflow.go:136-144 | providerConfig is the never-nil nested map; the other fields and the keys they come from are fixed by DeployReadsOnlyItsKeys and DeployConfigRoundTrip |
| Workflow.GetConfigForNotify | internal/domain/workflow.go:146-152 | channel is read from the `channel` key; subject and message are fixed by NotifyReadsOnlyItsKeys and NotifyConfigRoundTrip |
| Workflow.ApplyReadsOnlyItsKeys | internal/domain/workflow.go:114-134 | configs that agree on the twelve apply keys yield the same apply config |
| Workflow.DeployReadsOnlyItsKeys | internal/domain/workflow.go:136-144 | configs that agree on certificate, provider, providerAccessId, providerConfig and skipOnLastSucceeded yield the same deploy config |
| Workflow.NotifyReadsOnlyItsKeys | internal/domain/workflow.go:146-152 | configs that agree on channel, subject and message yield the same notify config |
| Workflow.ExtractorsDependOnlyOnConfig | internal/domain/workflow.go:92-152 | the extractors ignore the node's id, type, name, links and validated flag |
| Workflow.WithConfig | internal/domain/workflow.go:48-61 | a node differing from the given one only in its config: id, type, name, inputs, outputs, links and validated flag are kept |
| Workflow.ApplyConfigRoundTrip | internal/domain/workflow.go:114-134 | storing an apply config under its JSON names and reading it back gives every field back, with only skipBeforeExpiryDays defaulted (0 becomes 30) |
| Workflow.DeployConfigRoundTrip | internal/domain/workflow.go:136-144 | storing a deploy config and reading it back gives it back unchanged |
| Workflow.NotifyConfigRoundTrip | internal/domain/workflow.go:146-152 | channel, subject and message are read back from the same-named keys |
| Access.ReadShape | ui/src/domain/access.ts:38-152 | a successful read gives one value per property, of the declared kind, absent only for an optional property |
| Access.ObjectOf | ui/src/domain/access.ts:38-152 | the object built from a config type's values has only that type's property names as keys |
| Access.ReadShapeIffConforms | ui/src/domain/access.ts:38-152 | reading a config type succeeds exactly when the object has that object type |
| Access.ReadShapeIsLocal | ui/src/domain/access.ts:9 | reading a config type depends only on the type's own property names |
| Access.ReadShapeIgnoresOtherKeys | ui/src/domain/access.ts:9 | keys outside the config type do not change what is read |
| Access.ReadObjectOf | ui/src/domain/access.ts:38-152 | the object holding a config's present properties reads back as those values |
| Access.ConfigTypeOf | ui/src/domain/access.ts:11-32 | a provider tag selects a union member whose tag it is |
| Access.ConfigTypeOfTag | ui/src/domain/access.ts:11-32 | every union member is selected by its own provider tag |
| Access.UnionHasEveryShape | ui/src/domain/access.ts:11-32 | every config type is a member of the union |
| Access.ValuesOfMatch | ui/src/domain/access.ts:38-152 | every typed config's values match its object type, whose property names are distinct, and rebuild it |
| Access.Build | ui/src/domain/access.ts:38-152 | building from values of a config type yields a config of that type |
| Access.Decode | ui/src/domain/access.ts:3-35 | a decoded config belongs to the provider it was decoded for |
| Access.Encode | ui/src/domain/access.ts:38-152 | an encoded config holds only keys of its own config type |
| Access.DecodeIffConforms | ui/src/domain/access.ts:3-35 | decoding succeeds exactly for a provider with a union member and an object of that member's type |
| Access.DecodeEncode | ui/src/domain/access.ts:3-35 | encoding a typed config and decoding it under its provider gives it back |
| Access.DecodeIgnoresOtherKeys | ui/src/domain/access.ts:9 | extra keys in a config object are tolerated and ignored |
| Access.EncodeHasOnlyItsKeys | ui/src/domain/access.ts:38-152 | an encoded config holds only keys of its own config type |
| Access.EncodeInConfigUnion | ui/src/domain/access.ts:9-33 | every encoded config conforms to its own member of the union, and so through that member (not only through Local) has the type of `config` |
| Access.EveryObjectInConfigUnion | ui/src/domain/access.ts:9-33 | because the Local member is `NonNullable<unknown>`, every object has the type of `config` |
| Access.NS1ShapedAsNameSilo | ui/src/domain/access.ts:107-113 | ns1 has no union member, but its object type equals NameSilo's, so an ns1 object still has the type of `config` |
| Access.UnionCoversAccessProviders | ui/src/domain/access.ts:11-32 | every union member's tag is an access provider, and every access provider except ns1 has a member |
| Access.ACMEHttpReqConfigType | ui/src/domain/access.ts:38-43 | conforms iff endpoint is a string and mode, username and password are strings when present |
| Access.AzureConfigType | ui/src/domain/access.ts:55-60 | conforms iff tenantId, clientId and clientSecret are strings and environment is a string when present |
| Access.KubernetesConfigType | ui/src/domain/access.ts:96-98 | conforms iff kubeConfig is a string when present |
| Access.LocalConfigType | ui/src/domain/access.ts:100 | every object conforms to the Local config type |
| Access.SSHConfigType | ui/src/domain/access.ts:125-132 | conforms iff host and username are strings and port is a number, with password, key and keyPassphrase strings when present |
| Access.UCloudConfigType | ui/src/domain/access.ts:139-143 | conforms iff privateKey and publicKey are strings and projectId is a string when present |
| CredentialForms.TrimStart | ui/src/components/access/AccessEditFormVolcEngineConfig.tsx:29 | the result is a suffix of the input, left after a run of whitespace, and does not start with whitespace |
| CredentialForms.TrimEnd | ui/src/components/access/AccessEditFormVolcEngineConfig.tsx:29 | the result is a prefix of the input, left before a run of whitespace, and does not end with whitespace |
| CredentialForms.Trim | ui/src/components/access/AccessEditFormVolcEngineConfig.tsx:29 | the result neither starts nor ends with whitespace (with TrimSplits: it is the input less its leading and trailing whitespace) |
| CredentialForms.TrimSplits | ui/src/components/access/AccessEditFormVolcEngineConfig.tsx:29 | every string is leading whitespace, then its trimmed form, then trailing whitespace |
| CredentialForms.TrimOfPadded | ui/src/components/access/AccessEditFormVolcEngineConfig.tsx:29 | trimming a whitespace-padded unpadded string gives that string back |
| CredentialForms.PaddingDoesNotChangeTrim | ui/src/components/access/AccessEditFormVolcEngineConfig.tsx:26-37 | adding whitespace at either end does not change the trimmed form |
| CredentialForms.Utf16Length | ui/src/components/access/AccessEditFormVolcEngineConfig.tsx:30-31 | the JavaScript length of a string is between its character count and twice that |
| CredentialForms.Utf16LengthInBmp | ui/src/components/access/AccessEditFormVolcEngineConfig.tsx:30-31 | within the Basic Multilingual Plane the JavaScript length is the character count |
| CredentialForms.CheckField | ui/src/components/access/AccessEditFormVolcEngineConfig.tsx:27-36 | a property passes iff it is a string whose trimmed length is 1 to 64, passes as the trimmed string, and a non-string is a type error |
| CredentialForms.WhitespaceOnlyRejected | ui/src/components/access/AccessEditFormVolcEngineConfig.tsx:29-30 | a whitespace-only value fails as too small, because trim runs before min(1) |
| CredentialForms.PaddingDoesNotChangeVerdict | ui/src/components/access/AccessEditFormBytePlusConfig.tsx:26-37 | leading or trailing whitespace never changes the verdict or the parsed value |
| CredentialForms.LengthBoundIsInclusive | ui/src/components/access/AccessEditFormBytePlusConfig.tsx:31-36 | a 64-character value passes and a 65-character value fails as too big |
| CredentialForms.Parse | ui/src/components/access/AccessEditFormBytePlusConfig.tsx:26-37 | the form passes iff both properties pass, the result has exactly the two schema keys, and a failure lists each failing property's issue in order |
| CredentialForms.InitialModelFails | ui/src/components/access/AccessEditFormBytePlusConfig.tsx:19-28 | the empty initial model fails with a type error on both properties |
| CredentialForms.PropertiesAreIndependent | ui/src/components/access/AccessEditFormVolcEngineConfig.tsx:26-37 | a property's issues depend only on its own value, and a failing property fails the form |
| CredentialForms.OtherKeysStripped | ui/src/components/access/AccessEditFormVolcEngineConfig.tsx:26-37 | keys not in the schema do not affect the outcome and are not in the parsed value |
| CredentialForms.BlankFirstPropertyFails | ui/src/components/access/AccessEditFormBytePlusConfig.tsx:27-30 | an empty or whitespace-only accessKey fails the form as too small, whatever secretKey holds |
| CredentialForms.BytePlusSchemaNamesMatchConfig | ui/src/components/access/AccessEditFormBytePlusConfig.tsx:26-37 | the form's property names are those of the BytePlus config type |
| CredentialForms.VolcEngineSchemaNamesMatchConfig | ui/src/components/access/AccessEditFormVolcEngineConfig.tsx:26-37 | the form's property names are those of the VolcEngine config type |
| CredentialForms.BytePlusParsedDecodes | ui/src/components/access/AccessEditFormBytePlusConfig.tsx:26-37 | zod's parse output for the schema decodes as the BytePlus access config of the trimmed values |
| CredentialForms.VolcEngineParsedDecodes | ui/src/components/access/AccessEditFormVolcEngineConfig.tsx:26-37 | zod's parse output for the schema decodes as the VolcEngine access config of the trimmed values |
| CredentialForms.BytePlusRawDecodes | ui/src/components/access/AccessEditFormBytePlusConfig.tsx:38-63 | when validation passes, the raw field values the form hands on decode as the BytePlus access config of the untrimmed strings |
| CredentialForms.VolcEngineRawDecodes | ui/src/components/access/AccessEditFormVolcEngineConfig.tsx:38-63 | when validation passes, the raw field values the form hands on decode as the VolcEngine access config of the untrimmed strings |
| WorkflowList.FindById | ui/src/pages/workflows/WorkflowList.tsx:295 | finds a row iff one has the id, and then the first such row |
| WorkflowList.ReplaceById | ui/src/pages/workflows/WorkflowList.tsx:298-305 | same length; rows with the id become the response; all other rows are unchanged and in place |
| WorkflowList.ReplaceByIdKeepsIds | ui/src/pages/workflows/WorkflowList.tsx:298-305 | a response with the same id keeps the order of ids |
| WorkflowList.ReplaceByIdIdempotent | ui/src/pages/workflows/WorkflowList.tsx:298-305 | replacing twice with the same response is replacing once |
| WorkflowList.ReplaceByIdThenFind | ui/src/pages/workflows/WorkflowList.tsx:295-305 | after the replacement, looking the id up finds the response |
| WorkflowList.RemoveById | ui/src/pages/workflows/WorkflowList.tsx:321 | a row stays iff it was there and has another id |
| WorkflowList.RemoveByIdConcat | ui/src/pages/workflows/WorkflowList.tsx:321 | removal distributes over concatenation, so the remaining rows keep their order |
| WorkflowList.RemoveByIdCount | ui/src/pages/workflows/WorkflowList.tsx:321 | exactly the rows with the id are removed and none with it remains |
| WorkflowList.RemoveAbsentId | ui/src/pages/workflows/WorkflowList.tsx:321 | removing an id that no row has changes nothing |
| WorkflowList.EnabledFilter | ui/src/pages/workflows/WorkflowList.tsx:260 | true iff the state filter is "enabled", false iff it is "disabled" |
| WorkflowList.OtherStatesListAll | ui/src/pages/workflows/WorkflowList.tsx:260 | any other filter value, or none, applies no enabled filter |
| WorkflowList.ParamOrDefault | ui/src/pages/workflows/WorkflowList.tsx:248-249 | a missing, non-numeric or zero parameter gives the fallback and any other value is kept, so the result is the fallback exactly when one of those holds or the parameter equals it |
| WorkflowList.RowNumber | ui/src/pages/workflows/WorkflowList.tsx:60 | from page 1 on, with a non-negative page size and index, row numbers start at 1 |
| WorkflowList.RowNumbersConsecutive | ui/src/pages/workflows/WorkflowList.tsx:60 | rows on a page are numbered consecutively, and a page continues from the previous page's last row |
| WorkflowList.RowNumberRange | ui/src/pages/workflows/WorkflowList.tsx:60 | the rows of page p are numbered (p - 1) * pageSize + 1 to p * pageSize |
| WorkflowList.RowNumbersDisjoint | ui/src/pages/workflows/WorkflowList.tsx:60 | rows on different pages never share a number |
| WorkflowList.EnableBlocked | ui/src/pages/workflows/WorkflowList.tsx:288-291 | only a disabled workflow is ever refused |
| WorkflowList.SwitchOnNeedsValidContent | ui/src/pages/workflows/WorkflowList.tsx:288-296 | a request to switch a listed workflow on is sent only for content that passes the graph check |
| WorkflowList.DisablingNeverBlocked | ui/src/pages/workflows/WorkflowList.tsx:288 | switching off an enabled workflow is never refused by the graph check |
| WorkflowList.EnablingNeedsValidContent | ui/src/pages/workflows/WorkflowList.tsx:288-291 | a disabled workflow may be switched on iff it has content that passes the graph check |
| WorkflowList.RequestedEnabled | ui/src/pages/workflows/WorkflowList.tsx:295 | the negation of the listed row's `enabled`, or true when no row has the id |
| WorkflowList.SaveRoundTripToggles | ui/src/pages/workflows/WorkflowList.tsx:293-305 | once the server answers with the requested state, the next request asks for the opposite |
| WorkflowList.ListPage.constructor | ui/src/pages/workflows/WorkflowList.tsx:239-249 | empty table, the state filter from the query, and page/perPage from the query falling back to 1 and 10 |
| WorkflowList.ListPage.Request | ui/src/pages/workflows/WorkflowList.tsx:256-261 | the list request carries the page, the page size and the mapped enabled filter |
| WorkflowList.ListPage.RowNumberAt | ui/src/pages/workflows/WorkflowList.tsx:60 | the number of a row of the current page lies in that page's range |
| WorkflowList.ListPage.OnListSuccess | ui/src/pages/workflows/WorkflowList.tsx:265-268 | the response becomes the table and total; nothing else changes |
| WorkflowList.ListPage.HandleEnabledChange | ui/src/pages/workflows/WorkflowList.tsx:286-311 | a blocked switch sends nothing and changes nothing; otherwise the save asks for the negated state, and only a returned record replaces the rows with its id |
| WorkflowList.ListPage.HandleDelete | ui/src/pages/workflows/WorkflowList.tsx:317-323 | a reported removal filters out the rows with the id and reloads; otherwise nothing changes |
| WorkflowList.ListPage.SelectState | ui/src/pages/workflows/WorkflowList.tsx:107-115 | choosing a different state sets it and returns to page 1; choosing the current one changes nothing |
| WorkflowList.ListPage.ResetState | ui/src/pages/workflows/WorkflowList.tsx:119-125 | reset clears the state filter and returns to page 1 |
| WorkflowList.ListPage.ChangePage | ui/src/pages/workflows/WorkflowList.tsx:366-373 | the pagination sets page and page size and nothing else |
| DeployNode.Truthy | ui/src/components/workflow/node/DeployNode.tsx:33 | `!!v`: false for undefined, null and the empty string, true for other strings, objects and arrays |
| DeployNode.ProviderEntry | ui/src/components/workflow/node/DeployNode.tsx:33 | the provider entry of a config, undefined exactly when absent |
| DeployNode.FooterVisible | ui/src/components/workflow/node/DeployNode.tsx:32-34 | the footer shows only for a config with a provider entry |
| DeployNode.FooterVisibleForStringProvider | ui/src/components/workflow/node/DeployNode.tsx:32-34 | with a string provider the footer shows iff the string is non-empty |
| DeployNode.FooterHiddenWithoutProvider | ui/src/components/workflow/node/DeployNode.tsx:32-34 | with no provider, a null one or an empty one, the footer is hidden |
| DeployNode.SummaryOf | ui/src/components/workflow/node/DeployNode.tsx:41-52 | the configure prompt is shown iff the node is not validated |
| DeployNode.UnvalidatedShowsPrompt | ui/src/components/workflow/node/DeployNode.tsx:41-43 | an unvalidated node shows the prompt whatever its config |
| DeployNode.ConfirmedNode | ui/src/components/workflow/node/DeployNode.tsx:65-71 | config becomes the form values and validated becomes true; id, type, name, inputs, outputs and links are unchanged |
| DeployNode.ConfirmReplacesWholesale | ui/src/components/workflow/node/DeployNode.tsx:67-69 | the new config has exactly the form's keys and values; nothing is merged from the old config |
| DeployNode.ConfirmForgetsOldConfig | ui/src/components/workflow/node/DeployNode.tsx:66-71 | the confirmed node does not depend on the old config or the old flag |
| DeployNode.ConfirmIdempotent | ui/src/components/workflow/node/DeployNode.tsx:66-71 | confirming the same values twice is confirming them once |
| DeployNode.ConfirmedShowsProvider | ui/src/components/workflow/node/DeployNode.tsx:41-71 | a confirmed node shows its provider summary, not the prompt |
| DeployNode.ConfirmedDeployConfigReadsBack | ui/src/components/workflow/node/DeployNode.tsx:65-72 | a deploy config confirmed from the form is read back unchanged by GetConfigForDeploy |
| DeployNode.DeployNodeState.constructor | ui/src/components/workflow/node/DeployNode.tsx:26-34 | on mount nothing is pending, the drawer is closed and the footer follows the node's provider |
| DeployNode.DeployNodeState.HandleDrawerConfirm | ui/src/components/workflow/node/DeployNode.tsx:55-76 | a failed validation sends nothing; a passed one hands the confirmed node to the store; pending is false on every path and the rest is unchanged |
| DeployNode.DeployNodeState.HandleFormValuesChange | ui/src/components/workflow/node/DeployNode.tsx:78-80 | the footer follows the provider in the changed values |
| DeployNode.DeployNodeState.HandleOpenChange | ui/src/components/workflow/node/DeployNode.tsx:94-100 | sets the drawer state; closing resets the footer to the node's own provider |
| DeployNode.DeployNodeState.HandleBlockClick | ui/src/components/workflow/node/DeployNode.tsx:84 | clicking the block opens the drawer and changes nothing else |
| DeployNode.DeployNodeState.ReceiveNode | ui/src/components/workflow/node/DeployNode.tsx:32-34 | the footer effect reruns only when the provider entry changed, and then follows the new provider |

## Left out

- `maps.GetValueAsString`, `maps.GetValueAsBool` and `maps.GetValueAsInt32` are not part of this model.
  - They are the `Accessors` parameter. Their coercion rules are not modelled.
  - The lemmas state as hypotheses (`KeyLocal`, `ReadsBack`) what they need of them.
- Workflow.GetConfigForDeploy, Workflow.GetConfigForNotify: their own ensures name only the nested-map field or the channel. What they read is stated outside them, by the `ReadsOnlyItsKeys` and `RoundTrip` lemmas.
- The `Meta` fields and `LastRunTime` are not modelled, because they are time stamps and identity metadata.
- Workflow.ConfigValueAsMap does not model a typed-nil `map[string]any` stored under the key.
  - Such a value passes the type assertion at `internal/domain/workflow.go:107`, and `getConfigValueAsMap` then returns nil, not an empty map.
  - `Value` cannot express a typed nil. Maps decoded from JSON never hold one.
- JavaScript numbers are modelled as mathematical integers. `NaN`, fractions and `-0` are not represented, so `Truthy` sees no `NaN`.
- JavaScript `undefined` and an absent key are the same here, as `None` or a missing map key.
- A node's `config` is always a map. An undefined config reads as an absent provider.
- WorkflowList.ParamOrDefault takes the integer the query text denotes.
  - Turning the text into a number (`+text`, then `parseInt`) is abstracted as an `Option<int>`.
  - None is missing text or text that is not a number.
  - Fractional, exponent and hex spellings are not modelled.
  - A negative value is kept, as the code keeps it.
- `isAllNodesValidated`, `listWorkflow`, `saveWorkflow`, `removeWorkflow` and `updateNode` are imported from other modules and are modelled as parameters.
  - The graph check is a function parameter.
  - The server's answers are method parameters: the saved record or none, and whether the removal was reported.
  - The node handed to `updateNode` is a method result.
  - Tree-wide graph validation, cron checks and access-reference resolution are not modelled.
- DeployNode.DeployNodeState.HandleDrawerConfirm does not model the rejection thrown by `validateFields`.
  - The store update failing is not modelled either.
  - Both leave the same state as the paths modelled, with pending lowered.
  - `true` is visible only while the awaits are in progress, which a sequential method cannot show.
- The concurrency of the async handlers is not modelled: several confirms or saves in flight and the interleaving of state updates with re-renders.
- The abort-error suppression, the notifications and the warning messages are not modelled. They are user-interface output.
- Rendering is not modelled, for the same reason: tables, badges, icons, i18n texts, date formatting and the deploy-provider icon lookup.
- The `console.warn` on a node of the wrong type is not modelled.
- The forms' `useState`/`useEffect` syncing of initial values is not modelled, because it is user-interface state.
- The forms import `BytePlusAccessConfig` and `VolcEngineAccessConfig`. `ui/src/domain/access.ts` exports them as `AccessConfigForBytePlus` and `AccessConfigForVolcEngine`.
  - The model ties the forms to those two types.
- CredentialForms.Parse models zod's parse output, which the forms discard.
  - The forms' `onModelChange` receives antd's raw field values, which the model covers only through BytePlusRawDecodes and VolcEngineRawDecodes.
  - The antd form's own state, and the messages shown for failing rules, are not modelled.
- CredentialForms.IsWhitespace is the ECMAScript WhiteSpace and LineTerminator set, written out by code point. Unicode normalisation is not modelled.
- The zod issue messages are not modelled, because they are i18n strings. An issue keeps only its kind and bound.
