# GMX OFT deployment tooling, modelled in Dafny

This project models the two Hardhat tasks at the core of the GMX OFT
verification tooling:

- `lz:sdk:display-deployments` (`tasks/display-deployments.ts`) scans
  `deployments/<network>/` for bridge artifacts named
  `<GlvToken|MarketToken>_<Adapter|OFT>_<MarketPair>.json`. It groups the
  deployed addresses by market pair and token category (GM or GLV). It
  prints the pairs in sorted order, each address linked to its block
  explorer page (an OSC 8 terminal hyperlink) when the network has one and
  plain otherwise, and a summary line.
- `lz:sdk:validate-config` (`tasks/validate-config.ts`) reads, for every
  configured market pair, the hub token's on-chain `symbol()` and
  `decimals()`. A GM token must be called "GM" on chain. A GLV token must
  carry its configured symbol. The task reports the results and a mismatch
  summary.

Files:

- `common.dfy` (module `Common`): `Option`, the GM/GLV `Category`, and
  `Filter`, the model of `Array.prototype.filter`, with its lemmas.
- `text.dfy` (module `Text`): `endsWith`, `includes`, and the ascending
  string order used by `Array.prototype.sort`, with an insertion sort proved
  sorted and a permutation.
- `display_deployments.dfy` (module `DisplayDeployments`): file-name
  parsing, network selection, grouping, the report, and the task as an
  imperative method.
- `validate_config.dfy` (module `ValidateConfig`): network resolution,
  provider choice, per-token validation with the GM rule, the validation
  loop, the summary, and the task as an imperative method.

The directory listing, the outcome of reading and parsing each file, the
configured networks, the token table and the chain reads are inputs. What
the tasks print is modelled by the values they print (`ListOutcome`,
`RunOutcome`, `Summary`).

Behaviour of the code that the model keeps:

- The code copies `deployment.address` whatever it is. A missing one
  becomes `undefined` and is printed as such (`Record.address:
  Option<string>`, `AddressText`).
- The code creates a pair's group before it reads `address`. An artifact
  whose JSON is `null` therefore leaves an empty group for its pair, and
  the read then throws and is logged as a warning (`Touched` events). That
  pair is listed with no contracts.
- A market pair whose name is inherited by every object (`constructor`,
  `toString`, `__proto__`, ...) finds `grouped[pair]` already truthy. No
  group is created, and the push throws and is logged (`PrototypeKeys`).
- The hub network name is `unknown` when no network has the hub's
  endpoint id, and also when the matching network's name is empty
  (`|| 'unknown'`).

## Model

| member | source | states |
|---|---|---|
| DisplayDeployments.HyperlinkRoundTrip | tasks/display-deployments.ts:24-27 | a terminal reading the OSC 8 link gets back exactly the URL and the text it was made from |
| DisplayDeployments.AddressLinkShowsAddress | tasks/display-deployments.ts:10-39 | the terminal shows the plain address; it is a link exactly when the network has an explorer, and the link targets `<explorer>/<address>` |
| DisplayDeployments.DisplayName | tasks/display-deployments.ts:130 | the title has the pair's length and every `_` replaced by `-`, other characters kept |
| DisplayDeployments.ParseFileNameOfFileName | tasks/display-deployments.ts:95-99 | every artifact name parses back to its token kind, contract kind and market pair; underscores inside the pair stay part of it |
| DisplayDeployments.ParseFileNameSound | tasks/display-deployments.ts:95-98 | only artifact names parse: the parsed pair is non-empty without line terminators, and the name is rebuilt exactly from the parsed triple |
| DisplayDeployments.ArtifactNamesEndInJson | tasks/display-deployments.ts:84-95 | every name the pattern accepts ends in `.json`, so the candidate filter never hides an artifact by its suffix |
| DisplayDeployments.SelectNetworks | tasks/display-deployments.ts:69-78 | only directories are scanned; the exact filter wins over `mainnet`, which wins over `testnet`; each rule keeps exactly the matching directories |
| DisplayDeployments.CandidateFiles | tasks/display-deployments.ts:84-86 | a file is considered exactly when its name ends in `.json` and does not contain `solcInputs` |
| DisplayDeployments.FileEvent | tasks/display-deployments.ts:91-112 | a record is added exactly for parseable JSON with an artifact name whose pair is not inherited; `null` JSON only creates the group; an unreadable file is a warning whatever its name; other names are skipped; the category is GLV exactly for `GlvToken` |
| DisplayDeployments.ProcessFile | tasks/display-deployments.ts:91-112 | one file's effect on `grouped` is the effect of its classified event |
| DisplayDeployments.ScanNetwork | tasks/display-deployments.ts:83-113 | scanning one network applies the events of its candidate files, in directory order |
| DisplayDeployments.ScanDeployments | tasks/display-deployments.ts:69-114 | `grouped` after the scan is the result of all events of the selected networks, network by network and file by file |
| DisplayDeployments.GroupEventsValid | tasks/display-deployments.ts:80-103 | each key is created once, and every key has a group |
| DisplayDeployments.BucketsHoldTheirRecords | tasks/display-deployments.ts:101-109 | each accepted record lands in the bucket of its pair and category and no other, in scan order; duplicates are kept |
| DisplayDeployments.GroupKeys | tasks/display-deployments.ts:101-103 | a pair has a group exactly when some file created it |
| DisplayDeployments.ApplyTotal | tasks/display-deployments.ts:101-109 | one file raises the total by one when it adds a record and leaves it unchanged otherwise, creating an empty group included |
| DisplayDeployments.TotalCountsRecords | tasks/display-deployments.ts:158 | the summary total is the number of records added during the scan |
| DisplayDeployments.SortedKeys | tasks/display-deployments.ts:119 | the sorted keys are exactly the group keys, strictly ascending, one per group |
| DisplayDeployments.ReportShape | tasks/display-deployments.ts:119-124 | "no deployments found" is printed exactly when there is no group; otherwise one section per sorted key, and the pair count is the number of groups |
| DisplayDeployments.ReportLists | tasks/display-deployments.ts:119-130 | there is one section per group, and a pair has a section exactly when it has a group |
| DisplayDeployments.ReportOrder | tasks/display-deployments.ts:119-130 | the sections come in strictly ascending pair order, numbered from 1, each titled with its pair's display name |
| DisplayDeployments.ReportTotalIsLinesShown | tasks/display-deployments.ts:126-159 | the summary total equals the number of deployment lines printed under the pairs |
| DisplayDeployments.ListDeployments | tasks/display-deployments.ts:61-160 | no deployments directory gives only that error; otherwise "no deployments found" exactly when no file created a group, and the listed total is both the number of records added and the number of lines printed |
| Text.SortStrings | tasks/display-deployments.ts:119 | the keys come out ascending and as a permutation of the input |
| ValidateConfig.FirstNetworkWithEid | tasks/validate-config.ts:33-37 | the network found is the first whose `eid` equals the hub's; none is found only when no network has it |
| ValidateConfig.HubProviderFollowsResolvedNetwork | tasks/validate-config.ts:33-45 | a fresh RPC provider is used exactly when the first network with the hub's eid has a name that is not empty, not `unknown`, not the current network, and has a `url`; the provider connects to that `url` |
| ValidateConfig.ValidateTokenConfig | tasks/validate-config.ts:26-78 | a result exists exactly when the chain reads succeed; it carries the pair, category, resolved network, address and configured symbol unchanged, the on-chain symbol and decimals as read, and a match flag set exactly when the configured and on-chain symbols are equal |
| ValidateConfig.RunJob | tasks/validate-config.ts:184-198 | a result exists exactly when the chain reads succeed; the GM override changes only the match flag, keeping every fetched and configured field; every reported result obeys its category's rule: GM matches exactly when the on-chain symbol is "GM", GLV exactly when it equals the configured symbol |
| ValidateConfig.AttemptToken | tasks/validate-config.ts:183-198 | one attempt returns exactly the result `RunJob` specifies: nothing when a chain read fails, and for GM the match flag reset to the "GM" rule |
| ValidateConfig.PairJobs | tasks/validate-config.ts:179-202 | a pair's tokens are attempted under its own key and position, GM before GLV |
| ValidateConfig.Collect | tasks/validate-config.ts:176-214 | there are never more results than attempts, and every result obeys its category's rule |
| ValidateConfig.CollectAppend | tasks/validate-config.ts:183-201 | a failed read adds nothing and does not stop later tokens: results of consecutive attempts concatenate |
| ValidateConfig.CollectKeepsSuccesses | tasks/validate-config.ts:183-201 | the results are exactly the successful attempts, one each, in attempt order |
| ValidateConfig.JobsBelongToTheirPairs | tasks/validate-config.ts:179-197 | every attempted token belongs to the pair at its position in the table |
| ValidateConfig.JobsFollowTableOrder | tasks/validate-config.ts:179-202 | tokens are attempted pair by pair in table order, GM before GLV within a pair |
| ValidateConfig.JobsAreTheAdmittedTokens | tasks/validate-config.ts:181-194 | a token is attempted exactly when it is configured and the type filter admits it |
| ValidateConfig.ResultsFollowTableOrder | tasks/validate-config.ts:176-214 | each result comes from one successful attempt on the pair it names, and the results follow table order, GM before GLV |
| ValidateConfig.LookupPair | tasks/validate-config.ts:155-158 | a pair is found only when the table has it, and missing only when no entry has that key |
| ValidateConfig.TokensToValidate | tasks/validate-config.ts:154-160 | without a pair filter the whole table is validated; with one, exactly that pair, or "not found" when the table lacks it |
| ValidateConfig.FirstStructureViolation | tasks/validate-config.ts:162-170 | the reported pair is the first that fails the structural check, and no violation means every pair passes |
| ValidateConfig.CheckStructure | tasks/validate-config.ts:162-170 | the pre-check loop stops at the first failing pair |
| ValidateConfig.StructureViolationAbortsRun | tasks/validate-config.ts:162-170 | any failing pair ends the run with a structural error and no results |
| ValidateConfig.ValidatePair | tasks/validate-config.ts:179-213 | one iteration attempts the pair's admitted tokens, GM first, and appends exactly their successful results |
| ValidateConfig.ValidatePairs | tasks/validate-config.ts:176-214 | the loop attempts every admitted token of every pair, and its results are those of the attempts in order |
| ValidateConfig.ValidateConfigTask | tasks/validate-config.ts:143-218 | an invalid type filter is rejected exactly when given and not GM or GLV; no chain read happens unless every check passes; otherwise the results are those of all admitted tokens in table order |
| ValidateConfig.SummaryPartitions | tasks/validate-config.ts:104-108 | GM and GLV counts add up to the total, GM and GLV mismatches add up to the mismatches, and there are never more mismatches than results |
| ValidateConfig.MismatchesFollowCategoryRule | tasks/validate-config.ts:116-129 | a listed GM mismatch has an on-chain symbol other than "GM"; a listed GLV mismatch has an on-chain symbol other than its configured one |

## Left out

- File-system access (`existsSync`, `readdirSync`, `readFileSync`) is not modelled. The listing of `deployments/` and each file's read-and-parse outcome are inputs.
- `readdirSync` of a network directory that throws is not modelled. It is uncaught and would end the task.
- An `address` that is present but not a string (number, object) is not modelled. `Record.address` is a string or absent.
- Console rendering is not modelled: emoji, indentation, blank lines, "(none)" markers, warning and skip messages, and the `cli-table3` table of the validation results. The model keeps the values printed and the summary counts.
- String sorting compares Unicode code points. JavaScript compares UTF-16 code units, and the two differ only between astral characters and U+E000..U+FFFF.
- `grouped` keeps its keys in creation order. JavaScript lists array-index-like keys first. That order only feeds `sort()` and a sum, which do not depend on it.
- `BLOCK_EXPLORERS[network]` for a network directory named after an inherited object member (`constructor`, ...) is not modelled: `ExplorerBase` treats it as absent.
- `Tokens[filterMarketPair]` for an inherited member name is not modelled: `LookupPair` sees only the table's own entries.
- `validateHubNetworksNotInExpansion` is not part of this model. It is the predicate parameter `hubCheck`.
- The token table `Tokens` and `hre.config.networks` are inputs, as sequences of entries in iteration order.
- The ethers provider and contract calls are not modelled. They are the oracle `read(provider, address)`, which returns None when `symbol()` or `decimals()` throws. The concurrency of `Promise.all` is not modelled.
- A `url` property that is present but `undefined` is not modelled: `NetworkConfig.url` is present with a string or absent.
- Exceptions other than failed chain reads inside `validateTokenConfig` (for example a provider constructor that throws) are not modelled.
- `decimals` is an unbounded `nat`; the `uint8` bound of the ABI is not modelled.
- Hardhat task registration and argument parsing are not modelled. An omitted string parameter and an empty one are both falsy in the source and are both the empty string here.
