/** The `lz:sdk:validate-config` task: for every configured market pair it
    reads the hub token's on-chain `symbol()` and `decimals()`, compares the
    symbol with the rule of the token's category, and reports the results
    and a mismatch summary.

    The chain is an oracle: `read(provider, address)` is the pair of calls
    `symbol()` and `decimals()` issued through `provider`, or None when either
    throws. The structural check of a market pair's networks, which lives
    outside this file, is a predicate parameter. */
module ValidateConfig {
  import opened Common

  // ---------------------------------------------------------------------
  // Configuration and chain
  // ---------------------------------------------------------------------

  /** A `hre.config.networks` entry: its endpoint id and its RPC `url`, when present. */
  datatype NetworkConfig = NetworkConfig(eid: Option<int>, url: Option<string>)

  /** `hre.config.networks` as its entries, in iteration order. */
  type Networks = seq<(string, NetworkConfig)>

  datatype HubNetwork = HubNetwork(eid: int, contractAddress: string)

  datatype TokenConfig = TokenConfig(hubNetwork: HubNetwork, tokenSymbol: string)

  /** A `Tokens` entry: the optional GM and GLV tokens of one market pair. */
  datatype MarketPairConfig = MarketPairConfig(gm: Option<TokenConfig>, glv: Option<TokenConfig>)

  /** `Tokens` as its entries, in iteration order. */
  type TokenTable = seq<(string, MarketPairConfig)>

  datatype OnChainToken = OnChainToken(symbol: string, decimals: nat)

  /** The provider a contract is read through. */
  datatype Provider = CurrentProvider | RpcProvider(url: string)

  /** The configured networks, the network the task runs on, and the chain reads. */
  datatype Environment = Environment(
    networks: Networks,
    currentNetwork: string,
    read: (Provider, string) -> Option<OnChainToken>)

  datatype ValidationResult = ValidationResult(
    marketPair: string,
    tokenType: Category,
    network: string,
    contractAddress: string,
    configSymbol: string,
    onChainSymbol: string,
    decimals: nat,
    symbolMatch: bool)

  const Unknown: string := "unknown"

  /** The symbol every GM hub token is expected to have on chain. */
  const GenericGmSymbol: string := "GM"

  // ---------------------------------------------------------------------
  // Network resolution and provider choice
  // ---------------------------------------------------------------------

  /** The index of the first configured network whose eid is `eid`. */
  function FirstNetworkWithEid(networks: Networks, eid: int): (r: Option<nat>)
    ensures r.Some? ==> r.value < |networks| && networks[r.value].1.eid == Some(eid)
    ensures r.Some? ==> forall k :: 0 <= k < r.value ==> networks[k].1.eid != Some(eid)
    ensures r.None? ==> forall k :: 0 <= k < |networks| ==> networks[k].1.eid != Some(eid)
  {
    if networks == [] then None
    else if networks[0].1.eid == Some(eid) then Some(0)
    else
      match FirstNetworkWithEid(networks[1..], eid)
      case None => None
      case Some(k) => Some(k + 1)
  }

  /** Lines 33-37: the name of that network, or "unknown" when there is
      none or its name is empty. */
  function ResolveNetworkName(networks: Networks, eid: int): string
  {
    match FirstNetworkWithEid(networks, eid)
    case None => Unknown
    case Some(i) => if networks[i].0 == "" then Unknown else networks[i].0
  }

  /** `hre.config.networks[name]` */
  function LookupNetwork(networks: Networks, name: string): (r: Option<NetworkConfig>)
    ensures r.Some? ==> exists i :: 0 <= i < |networks| && networks[i] == (name, r.value)
    ensures r.None? ==> forall i :: 0 <= i < |networks| ==> networks[i].0 != name
  {
    if networks == [] then None
    else if networks[0].0 == name then Some(networks[0].1)
    else
      var r := LookupNetwork(networks[1..], name);
      assert r.Some? ==> exists i :: 0 <= i < |networks| && networks[i] == (name, r.value) by {
        if r.Some? {
          var i :| 0 <= i < |networks[1..]| && networks[1..][i] == (name, r.value);
          assert networks[i + 1] == (name, r.value);
        }
      }
      r
  }

  /** Object keys are unique. */
  predicate DistinctNames(networks: Networks)
  {
    forall i, j :: 0 <= i < j < |networks| ==> networks[i].0 != networks[j].0
  }

  /** With unique names, looking a network up by its name finds its entry. */
  lemma {:induction false} LookupFindsEntry(networks: Networks, i: nat)
    requires DistinctNames(networks) && i < |networks|
    ensures LookupNetwork(networks, networks[i].0) == Some(networks[i].1)
  {
    if i > 0 {
      assert networks[0].0 != networks[i].0;
      assert networks[1..][i - 1] == networks[i];
      LookupFindsEntry(networks[1..], i - 1);
    }
  }

  /** Lines 40-45 and 63-64: a fresh JSON-RPC provider when the network is
      known, is not the current one and has a `url`; the current provider
      otherwise. */
  function ChooseProvider(env: Environment, networkName: string): Provider
  {
    if networkName != Unknown && networkName != env.currentNetwork then
      match LookupNetwork(env.networks, networkName)
      case Some(NetworkConfig(_, Some(url))) => RpcProvider(url)
      case _ => CurrentProvider
    else CurrentProvider
  }

  /** The hub token is read through a fresh provider exactly when the first
      network with the hub's eid has a usable name other than the current
      network's and a `url`; that provider connects to that `url`. */
  lemma HubProviderFollowsResolvedNetwork(env: Environment, eid: int)
    requires DistinctNames(env.networks)
    ensures
      var p := ChooseProvider(env, ResolveNetworkName(env.networks, eid));
      var first := FirstNetworkWithEid(env.networks, eid);
      p.RpcProvider? <==>
        && first.Some?
        && env.networks[first.value].0 !in {"", Unknown, env.currentNetwork}
        && env.networks[first.value].1.url.Some?
    ensures
      var p := ChooseProvider(env, ResolveNetworkName(env.networks, eid));
      var first := FirstNetworkWithEid(env.networks, eid);
      p.RpcProvider? ==> env.networks[first.value].1.url == Some(p.url)
  {
    var first := FirstNetworkWithEid(env.networks, eid);
    if first.Some? {
      LookupFindsEntry(env.networks, first.value);
    }
  }

  // ---------------------------------------------------------------------
  // Validating one token (lines 26-78)
  // ---------------------------------------------------------------------

  /** One token's result, or None when a chain read threw. */
  function ValidateTokenConfig(env: Environment, marketPair: string, tokenType: Category, config: TokenConfig)
    : (r: Option<ValidationResult>)
    ensures
      var name := ResolveNetworkName(env.networks, config.hubNetwork.eid);
      var read := env.read(ChooseProvider(env, name), config.hubNetwork.contractAddress);
      && (r.Some? <==> read.Some?)
      && (r.Some? ==>
        && r.value.marketPair == marketPair
        && r.value.tokenType == tokenType
        && r.value.network == name
        && r.value.contractAddress == config.hubNetwork.contractAddress
        && r.value.configSymbol == config.tokenSymbol
        && r.value.onChainSymbol == read.value.symbol
        && r.value.decimals == read.value.decimals
        && (r.value.symbolMatch <==> config.tokenSymbol == read.value.symbol))
  {
    var networkName := ResolveNetworkName(env.networks, config.hubNetwork.eid);
    var provider := ChooseProvider(env, networkName);
    match env.read(provider, config.hubNetwork.contractAddress)
    case None => None
    case Some(token) =>
      Some(ValidationResult(
        marketPair, tokenType, networkName, config.hubNetwork.contractAddress,
        config.tokenSymbol, token.symbol, token.decimals, config.tokenSymbol == token.symbol))
  }

  /** The category rule a reported result obeys: a GM hub token must be
      named "GM" on chain, a GLV token must carry its configured symbol. */
  predicate ObeysCategoryRule(r: ValidationResult)
  {
    match r.tokenType
    case GM => r.symbolMatch <==> r.onChainSymbol == GenericGmSymbol
    case GLV => r.symbolMatch <==> r.onChainSymbol == r.configSymbol
  }

  // ---------------------------------------------------------------------
  // The validation loop (lines 176-214)
  // ---------------------------------------------------------------------

  /** One token the loop validates: the position of its market pair in the
      table, the pair's key, its category and its configuration. */
  datatype Job = Job(position: nat, marketPair: string, tokenType: Category, config: TokenConfig)

  /** `!filterTokenType || filterTokenType === type` */
  predicate TypeAdmitted(filter: string, t: Category)
  {
    filter == "" || filter == CategoryName(t)
  }

  /** The tokens of one pair the loop attempts: GM first, then GLV. */
  function PairJobs(position: nat, key: string, config: MarketPairConfig, filter: string): (js: seq<Job>)
    ensures forall i :: 0 <= i < |js| ==> js[i].position == position && js[i].marketPair == key
    ensures |js| <= 2 && (|js| == 2 ==> js[0].tokenType == GM && js[1].tokenType == GLV)
  {
    (if config.gm.Some? && TypeAdmitted(filter, GM) then [Job(position, key, GM, config.gm.value)] else [])
    + (if config.glv.Some? && TypeAdmitted(filter, GLV) then [Job(position, key, GLV, config.glv.value)] else [])
  }

  /** The tokens the loop attempts, pair by pair. */
  function Jobs(pairs: TokenTable, filter: string): seq<Job>
  {
    if pairs == [] then []
    else
      var n := |pairs| - 1;
      Jobs(pairs[..n], filter) + PairJobs(n, pairs[n].0, pairs[n].1, filter)
  }

  /** One attempt: the token's result, with the GM override of line 186. */
  function RunJob(env: Environment, job: Job): (r: Option<ValidationResult>)
    ensures r.Some? ==> ObeysCategoryRule(r.value)
    ensures r.Some? ==> r.value.marketPair == job.marketPair && r.value.tokenType == job.tokenType
    // a failed read gives no result, and the override changes only the match flag
    ensures var v := ValidateTokenConfig(env, job.marketPair, job.tokenType, job.config);
      && (r.Some? <==> v.Some?)
      && (r.Some? ==> r.value.(symbolMatch := v.value.symbolMatch) == v.value)
  {
    match ValidateTokenConfig(env, job.marketPair, job.tokenType, job.config)
    case None => None
    case Some(r) => Some(if job.tokenType == GM then r.(symbolMatch := r.onChainSymbol == GenericGmSymbol) else r)
  }

  predicate Succeeds(env: Environment, job: Job)
  {
    RunJob(env, job).Some?
  }

  /** The `results` array after attempting `jobs` in order. */
  function Collect(env: Environment, jobs: seq<Job>): (rs: seq<ValidationResult>)
    ensures |rs| <= |jobs|
    ensures forall i :: 0 <= i < |rs| ==> ObeysCategoryRule(rs[i])
  {
    if jobs == [] then []
    else
      var n := |jobs| - 1;
      Collect(env, jobs[..n]) + (match RunJob(env, jobs[n]) case Some(r) => [r] case None => [])
  }

  /** A failed attempt only drops its own token: what comes after is
      collected as if it had been attempted alone. */
  lemma {:induction false} CollectAppend(env: Environment, a: seq<Job>, b: seq<Job>)
    ensures Collect(env, a + b) == Collect(env, a) + Collect(env, b)
    decreases |b|
  {
    if b == [] {
      assert a + b == a;
    } else {
      var n := |b| - 1;
      assert (a + b)[..|a + b| - 1] == a + b[..n];
      assert (a + b)[|a + b| - 1] == b[n];
      CollectAppend(env, a, b[..n]);
    }
  }

  /** The results are the successful attempts, one each, in attempt order. */
  lemma {:induction false} CollectKeepsSuccesses(env: Environment, jobs: seq<Job>)
    ensures var rs := Collect(env, jobs);
      var done := Filter(jobs, (j: Job) => Succeeds(env, j));
      && |rs| == |done|
      && forall i :: 0 <= i < |rs| ==> rs[i] == RunJob(env, done[i]).value
    decreases |jobs|
  {
    if jobs != [] {
      var n := |jobs| - 1;
      var p := (j: Job) => Succeeds(env, j);
      CollectKeepsSuccesses(env, jobs[..n]);
      assert jobs == jobs[..n] + [jobs[n]];
      FilterAppend(jobs[..n], [jobs[n]], p);
      assert Filter([jobs[n]], p) == if p(jobs[n]) then [jobs[n]] else [] by {
        assert [jobs[n]][1..] == [];
      }
      var rs := Collect(env, jobs[..n]);
      var done := Filter(jobs[..n], p);
      assert Collect(env, jobs) == rs + (match RunJob(env, jobs[n]) case Some(r) => [r] case None => []);
      assert Filter(jobs, p) == done + (if p(jobs[n]) then [jobs[n]] else []);
    }
  }

  /** Every token the loop attempts belongs to the pair at its position. */
  lemma {:induction false} JobsBelongToTheirPairs(pairs: TokenTable, filter: string)
    ensures forall i :: 0 <= i < |Jobs(pairs, filter)| ==>
      Jobs(pairs, filter)[i].position < |pairs|
      && Jobs(pairs, filter)[i].marketPair == pairs[Jobs(pairs, filter)[i].position].0
    decreases |pairs|
  {
    if pairs != [] {
      var n := |pairs| - 1;
      JobsBelongToTheirPairs(pairs[..n], filter);
      var init := Jobs(pairs[..n], filter);
      var last := PairJobs(n, pairs[n].0, pairs[n].1, filter);
      var jobs := Jobs(pairs, filter);
      assert jobs == init + last;
      assert forall i :: 0 <= i < |init| ==> init[i].position < n && init[i].marketPair == pairs[..n][init[i].position].0;
      forall i | 0 <= i < |jobs|
        ensures jobs[i].position < |pairs| && jobs[i].marketPair == pairs[jobs[i].position].0
      {
        if i < |init| {
          assert jobs[i] == init[i];
          assert pairs[..n][init[i].position] == pairs[init[i].position];
        } else {
          assert jobs[i] == last[i - |init|];
        }
      }
    }
  }

  /** `a` is attempted before `b`: an earlier pair, or GM before GLV within a pair. */
  predicate InOrder(a: Job, b: Job)
  {
    a.position < b.position || (a.position == b.position && a.tokenType == GM && b.tokenType == GLV)
  }

  /** The loop visits pairs in table order and, within a pair, GM before GLV. */
  lemma {:induction false} JobsFollowTableOrder(pairs: TokenTable, filter: string)
    ensures forall i, j :: 0 <= i < j < |Jobs(pairs, filter)| ==>
      InOrder(Jobs(pairs, filter)[i], Jobs(pairs, filter)[j])
    decreases |pairs|
  {
    if pairs != [] {
      var n := |pairs| - 1;
      JobsFollowTableOrder(pairs[..n], filter);
      JobsBelongToTheirPairs(pairs[..n], filter);
      var init := Jobs(pairs[..n], filter);
      var last := PairJobs(n, pairs[n].0, pairs[n].1, filter);
      var jobs := Jobs(pairs, filter);
      assert jobs == init + last;
      assert forall i :: 0 <= i < |init| ==> init[i].position < n;
      forall i, j | 0 <= i < j < |jobs|
        ensures InOrder(jobs[i], jobs[j])
      {
        if j < |init| {
          assert jobs[i] == init[i] && jobs[j] == init[j];
        } else if i < |init| {
          assert jobs[i] == init[i] && jobs[j] == last[j - |init|];
        } else {
          assert jobs[i] == last[i - |init|] && jobs[j] == last[j - |init|];
        }
      }
    }
  }

  /** The results of a run come in table order, GM before GLV within a
      pair: each is the result of one successful attempt, and those
      attempts keep the loop's order. */
  lemma ResultsFollowTableOrder(env: Environment, pairs: TokenTable, filter: string)
    ensures var rs := Collect(env, Jobs(pairs, filter));
      var done := Filter(Jobs(pairs, filter), (j: Job) => Succeeds(env, j));
      && |rs| == |done|
      && (forall i :: 0 <= i < |rs| ==>
            && rs[i].marketPair == done[i].marketPair
            && rs[i].tokenType == done[i].tokenType
            && done[i].position < |pairs|
            && done[i].marketPair == pairs[done[i].position].0)
      && (forall i, j :: 0 <= i < j < |done| ==> InOrder(done[i], done[j]))
  {
    var jobs := Jobs(pairs, filter);
    var p := (j: Job) => Succeeds(env, j);
    CollectKeepsSuccesses(env, jobs);
    JobsFollowTableOrder(pairs, filter);
    JobsBelongToTheirPairs(pairs, filter);
    FilterKeepsOrder(jobs, p, InOrder);
  }

  /** The configured token of category `t`, if any. */
  function TokenOf(config: MarketPairConfig, t: Category): Option<TokenConfig>
  {
    match t
    case GM => config.gm
    case GLV => config.glv
  }

  /** Some job attempts the category-`t` token of the pair at position `k`. */
  predicate Attempts(jobs: seq<Job>, k: nat, t: Category)
  {
    exists i :: 0 <= i < |jobs| && jobs[i].position == k && jobs[i].tokenType == t
  }

  lemma AttemptsAppend(a: seq<Job>, b: seq<Job>, k: nat, t: Category)
    ensures Attempts(a + b, k, t) <==> Attempts(a, k, t) || Attempts(b, k, t)
  {
    if Attempts(a + b, k, t) {
      var i :| 0 <= i < |a + b| && (a + b)[i].position == k && (a + b)[i].tokenType == t;
      if i >= |a| {
        assert b[i - |a|] == (a + b)[i];
      }
    }
    if Attempts(a, k, t) {
      var i :| 0 <= i < |a| && a[i].position == k && a[i].tokenType == t;
      assert (a + b)[i] == a[i];
    }
    if Attempts(b, k, t) {
      var i :| 0 <= i < |b| && b[i].position == k && b[i].tokenType == t;
      assert (a + b)[i + |a|] == b[i];
    }
  }

  lemma PairJobsAttempts(position: nat, key: string, config: MarketPairConfig, filter: string, k: nat, t: Category)
    ensures Attempts(PairJobs(position, key, config, filter), k, t)
      <==> k == position && TokenOf(config, t).Some? && TypeAdmitted(filter, t)
  {
    var js := PairJobs(position, key, config, filter);
    var g := if config.gm.Some? && TypeAdmitted(filter, GM) then [Job(position, key, GM, config.gm.value)] else [];
    var l := if config.glv.Some? && TypeAdmitted(filter, GLV) then [Job(position, key, GLV, config.glv.value)] else [];
    assert js == g + l;
    if Attempts(js, k, t) {
      var i :| 0 <= i < |js| && js[i].position == k && js[i].tokenType == t;
      if i < |g| {
        assert js[i] == g[i];
      } else {
        assert js[i] == l[i - |g|];
      }
    }
    if k == position && TokenOf(config, t).Some? && TypeAdmitted(filter, t) {
      if t == GM {
        assert js[0].tokenType == GM;
      } else {
        assert js[|js| - 1].tokenType == GLV;
      }
    }
  }

  /** A token is attempted exactly when it is configured and the type filter
      lets it through. */
  lemma {:induction false} JobsAreTheAdmittedTokens(pairs: TokenTable, filter: string, k: nat, t: Category)
    requires k < |pairs|
    ensures Attempts(Jobs(pairs, filter), k, t) <==> TokenOf(pairs[k].1, t).Some? && TypeAdmitted(filter, t)
    decreases |pairs|
  {
    var n := |pairs| - 1;
    var init := Jobs(pairs[..n], filter);
    assert Jobs(pairs, filter) == init + PairJobs(n, pairs[n].0, pairs[n].1, filter);
    AttemptsAppend(init, PairJobs(n, pairs[n].0, pairs[n].1, filter), k, t);
    PairJobsAttempts(n, pairs[n].0, pairs[n].1, filter, k, t);
    if k < n {
      JobsAreTheAdmittedTokens(pairs[..n], filter, k, t);
      assert pairs[..n][k] == pairs[k];
    } else {
      JobsBelongToTheirPairs(pairs[..n], filter);
      assert !Attempts(init, k, t);
    }
  }

  // ---------------------------------------------------------------------
  // The task (lines 140-218)
  // ---------------------------------------------------------------------

  /** The task's parameters; an empty string means the parameter was not given. */
  datatype ValidateArgs = ValidateArgs(marketPair: string, tokenType: string)

  datatype RunOutcome =
    | InvalidTokenType             // thrown at line 148
    | MarketPairNotFound           // thrown at line 159
    | StructureInvalid(marketPair: string)  // the early return of line 168
    | Validated(results: seq<ValidationResult>)

  predicate TokenTypeValid(filter: string)
  {
    filter == "" || filter == "GM" || filter == "GLV"
  }

  /** `Tokens[key]` */
  function LookupPair(tokens: TokenTable, key: string): (r: Option<MarketPairConfig>)
    ensures r.None? ==> forall i :: 0 <= i < |tokens| ==> tokens[i].0 != key
    ensures r.Some? ==> (key, r.value) in tokens
  {
    if tokens == [] then None
    else if tokens[0].0 == key then Some(tokens[0].1)
    else LookupPair(tokens[1..], key)
  }

  /** Lines 154-160: the pairs to validate, or None when the market-pair
      filter names a pair `Tokens` does not have. */
  function TokensToValidate(tokens: TokenTable, filter: string): (r: Option<TokenTable>)
    ensures filter == "" ==> r == Some(tokens)
    ensures filter != "" && r.Some? ==> |r.value| == 1 && r.value[0].0 == filter && r.value[0] in tokens
    ensures filter != "" && r.None? ==> forall i :: 0 <= i < |tokens| ==> tokens[i].0 != filter
  {
    if filter == "" then Some(tokens)
    else
      match LookupPair(tokens, filter)
      case None => None
      case Some(config) => Some([(filter, config)])
  }

  /** The first pair that fails the structural check. */
  function FirstStructureViolation(pairs: TokenTable, hubCheck: MarketPairConfig -> bool): (r: Option<nat>)
    ensures r.Some? ==> r.value < |pairs| && !hubCheck(pairs[r.value].1)
    ensures r.Some? ==> forall k :: 0 <= k < r.value ==> hubCheck(pairs[k].1)
    ensures r.None? ==> forall k :: 0 <= k < |pairs| ==> hubCheck(pairs[k].1)
  {
    if pairs == [] then None
    else if !hubCheck(pairs[0].1) then Some(0)
    else
      match FirstStructureViolation(pairs[1..], hubCheck)
      case None => None
      case Some(k) => Some(k + 1)
  }

  /** What a run of the task ends with. */
  function Run(args: ValidateArgs, tokens: TokenTable, hubCheck: MarketPairConfig -> bool, env: Environment): RunOutcome
  {
    if !TokenTypeValid(args.tokenType) then InvalidTokenType
    else
      match TokensToValidate(tokens, args.marketPair)
      case None => MarketPairNotFound
      case Some(pairs) =>
        match FirstStructureViolation(pairs, hubCheck)
        case Some(i) => StructureInvalid(pairs[i].0)
        case None => Validated(Collect(env, Jobs(pairs, args.tokenType)))
  }

  /** Lines 162-170: the first pair whose networks fail the structural check. */
  method CheckStructure(pairs: TokenTable, hubCheck: MarketPairConfig -> bool) returns (violation: Option<nat>)
    ensures violation == FirstStructureViolation(pairs, hubCheck)
  {
    for i := 0 to |pairs|
      invariant forall k :: 0 <= k < i ==> hubCheck(pairs[k].1)
    {
      if !hubCheck(pairs[i].1) {
        return Some(i);
      }
    }
    return None;
  }

  /** The `try` blocks of lines 183-190 and 196-201: one token's result,
      with the GM override, or None when its chain read threw. */
  method AttemptToken(env: Environment, job: Job) returns (r: Option<ValidationResult>)
    ensures r == RunJob(env, job)
  {
    r := ValidateTokenConfig(env, job.marketPair, job.tokenType, job.config);
    if r.Some? && job.tokenType == GM {
      var result := r.value;
      result := result.(symbolMatch := result.onChainSymbol == GenericGmSymbol);
      r := Some(result);
    }
  }

  /** A single attempt contributes its result, if any. */
  lemma CollectOne(env: Environment, job: Job)
    ensures Collect(env, [job]) == match RunJob(env, job) case Some(r) => [r] case None => []
  {
    assert [job][..0] == [];
  }

  /** One iteration of the loop of lines 176-214: validates the pair's GM
      token, then its GLV token, and appends what succeeded to `results`. */
  method ValidatePair(
    env: Environment, position: nat, key: string, config: MarketPairConfig, filter: string,
    results: seq<ValidationResult>)
    returns (next: seq<ValidationResult>, jobs: seq<Job>)
    ensures jobs == PairJobs(position, key, config, filter)
    ensures next == results + Collect(env, jobs)
  {
    next, jobs := results, [];
    if config.gm.Some? && (filter == "" || filter == "GM") {
      var job := Job(position, key, GM, config.gm.value);
      var gmResult := AttemptToken(env, job);
      if gmResult.Some? {
        next := next + [gmResult.value];
      }
      CollectOne(env, job);
      jobs := [job];
    }
    ghost var before := jobs;
    if config.glv.Some? && (filter == "" || filter == "GLV") {
      var job := Job(position, key, GLV, config.glv.value);
      var glvResult := AttemptToken(env, job);
      if glvResult.Some? {
        next := next + [glvResult.value];
      }
      CollectOne(env, job);
      CollectAppend(env, before, [job]);
      jobs := jobs + [job];
    }
  }

  lemma JobsSnoc(pairs: TokenTable, filter: string, i: nat)
    requires i < |pairs|
    ensures Jobs(pairs[..i + 1], filter) == Jobs(pairs[..i], filter) + PairJobs(i, pairs[i].0, pairs[i].1, filter)
  {
    assert pairs[..i + 1][..i] == pairs[..i];
  }

  /** Lines 176-214: validates every pair in order. */
  method ValidatePairs(env: Environment, pairs: TokenTable, filter: string)
    returns (results: seq<ValidationResult>, attempted: seq<Job>)
    ensures attempted == Jobs(pairs, filter)
    ensures results == Collect(env, attempted)
  {
    results, attempted := [], [];
    for i := 0 to |pairs|
      invariant attempted == Jobs(pairs[..i], filter)
      invariant results == Collect(env, attempted)
    {
      var pairJobs;
      results, pairJobs := ValidatePair(env, i, pairs[i].0, pairs[i].1, filter, results);
      CollectAppend(env, attempted, pairJobs);
      JobsSnoc(pairs, filter, i);
      attempted := attempted + pairJobs;
    }
    assert pairs[..|pairs|] == pairs;
  }

  /** The task action. `attempted` lists the tokens whose chain reads were
      issued, in order. */
  method ValidateConfigTask(
    args: ValidateArgs, tokens: TokenTable, hubCheck: MarketPairConfig -> bool, env: Environment)
    returns (outcome: RunOutcome, attempted: seq<Job>)
    ensures outcome == Run(args, tokens, hubCheck, env)
    ensures outcome.InvalidTokenType? <==> !TokenTypeValid(args.tokenType)
    ensures !outcome.Validated? ==> attempted == []
    ensures outcome.Validated? ==>
      && attempted == Jobs(TokensToValidate(tokens, args.marketPair).value, args.tokenType)
      && outcome.results == Collect(env, attempted)
  {
    if !(args.tokenType == "" || args.tokenType == "GM" || args.tokenType == "GLV") {
      return InvalidTokenType, [];
    }
    var pairs: TokenTable;
    if args.marketPair != "" {
      var config := LookupPair(tokens, args.marketPair);
      if config.None? {
        return MarketPairNotFound, [];
      }
      pairs := [(args.marketPair, config.value)];
    } else {
      pairs := tokens;
    }
    var violation := CheckStructure(pairs, hubCheck);
    if violation.Some? {
      return StructureInvalid(pairs[violation.value].0), [];
    }
    var results;
    results, attempted := ValidatePairs(env, pairs, args.tokenType);
    outcome := Validated(results);
  }

  /** A structural violation in any considered pair ends the run before any
      token is read, with no results. */
  lemma StructureViolationAbortsRun(
    args: ValidateArgs, tokens: TokenTable, hubCheck: MarketPairConfig -> bool, env: Environment, k: nat)
    requires TokenTypeValid(args.tokenType)
    requires TokensToValidate(tokens, args.marketPair).Some?
    requires k < |TokensToValidate(tokens, args.marketPair).value|
    requires !hubCheck(TokensToValidate(tokens, args.marketPair).value[k].1)
    ensures Run(args, tokens, hubCheck, env).StructureInvalid?
  {
    var pairs := TokensToValidate(tokens, args.marketPair).value;
    assert FirstStructureViolation(pairs, hubCheck).Some?;
  }

  // ---------------------------------------------------------------------
  // The summary of `formatTable` (lines 104-108)
  // ---------------------------------------------------------------------

  datatype Summary = Summary(total: nat, gm: nat, glv: nat, mismatches: nat, gmMismatches: nat, glvMismatches: nat)

  predicate IsGm(r: ValidationResult) { r.tokenType == GM }
  predicate IsGlv(r: ValidationResult) { r.tokenType == GLV }
  predicate IsMismatch(r: ValidationResult) { !r.symbolMatch }

  function Summarize(results: seq<ValidationResult>): Summary
  {
    var mismatches := Filter(results, IsMismatch);
    Summary(
      |results|,
      |Filter(results, IsGm)|,
      |Filter(results, IsGlv)|,
      |mismatches|,
      |Filter(mismatches, IsGm)|,
      |Filter(mismatches, IsGlv)|)
  }

  /** GM and GLV split both the results and the mismatches. */
  lemma SummaryPartitions(results: seq<ValidationResult>)
    ensures var s := Summarize(results);
      s.gm + s.glv == s.total && s.gmMismatches + s.glvMismatches == s.mismatches
      && s.mismatches <= s.total
  {
    FilterPartition(results, IsGm, IsGlv);
    FilterPartition(Filter(results, IsMismatch), IsGm, IsGlv);
  }

  /** In a run's results a GM mismatch is a GM token whose on-chain symbol
      is not "GM", a GLV mismatch one whose on-chain symbol differs from its
      configured symbol. */
  lemma MismatchesFollowCategoryRule(env: Environment, jobs: seq<Job>)
    ensures var mismatches := Filter(Collect(env, jobs), IsMismatch);
      && (forall r :: r in Filter(mismatches, IsGm) ==> r.onChainSymbol != GenericGmSymbol)
      && (forall r :: r in Filter(mismatches, IsGlv) ==> r.onChainSymbol != r.configSymbol)
  {
  }
}
