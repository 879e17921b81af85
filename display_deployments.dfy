/** The `lz:sdk:display-deployments` task: it scans `deployments/<network>/`
    artifact files, classifies each file by its name, groups the deployed
    addresses by market pair and token category, and reports them with
    block-explorer hyperlinks and a summary.

    The directory listing and the outcome of reading and parsing each file
    are inputs; console output is represented by the report it prints. */
module DisplayDeployments {
  import opened Common
  import opened Text

  // ---------------------------------------------------------------------
  // Terminal hyperlinks and block explorers
  // ---------------------------------------------------------------------

  const Esc: char := '\U{1B}'

  /** Opening of an OSC 8 hyperlink escape: ESC ] 8 ; ; */
  const LinkOpen: string := [Esc] + "]8;;"

  /** The string terminator ESC \ that closes each OSC 8 escape. */
  const LinkClose: string := [Esc] + "\\"

  /** Explorer address pages per network name. */
  function BlockExplorers(): map<string, string>
  {
    map[
    "arbitrum-mainnet" := "https://arbiscan.io/address",
    "base-mainnet" := "https://basescan.org/address",
    "bera-mainnet" := "https://berascan.com/address",
    "botanix-mainnet" := "https://botanixscan.io/address",
    "bsc-mainnet" := "https://bscscan.com/address",
    "ethereum-mainnet" := "https://etherscan.io/address",
    "arbitrum-testnet" := "https://sepolia.arbiscan.io/address",
    "ethereum-testnet" := "https://sepolia.etherscan.io/address"
    ]
  }

  predicate NoEscape(s: string)
  {
    forall i :: 0 <= i < |s| ==> s[i] != Esc
  }

  /** Wraps `text` in an OSC 8 hyperlink to `url`. */
  function CreateClickableLink(text: string, url: string): string
  {
    LinkOpen + url + LinkClose + text + LinkOpen + LinkClose
  }

  datatype Hyperlink = Hyperlink(url: string, text: string)

  /** Position of the first escape character, or |s| when there is none. */
  function IndexOfEsc(s: string): (i: nat)
    ensures i <= |s|
    ensures forall k :: 0 <= k < i ==> s[k] != Esc
    ensures i < |s| ==> s[i] == Esc
  {
    if s == [] || s[0] == Esc then 0 else 1 + IndexOfEsc(s[1..])
  }

  /** How a terminal that understands OSC 8 reads `s`: one hyperlink whose
      target and visible text contain no escape, or None. */
  function ParseHyperlink(s: string): Option<Hyperlink>
  {
    if !IsPrefix(LinkOpen, s) then None
    else
      var rest := s[|LinkOpen|..];
      var i := IndexOfEsc(rest);
      var tail := rest[i..];
      if !IsPrefix(LinkClose, tail) then None
      else
        var body := tail[|LinkClose|..];
        var j := IndexOfEsc(body);
        if body[j..] == LinkOpen + LinkClose then Some(Hyperlink(rest[..i], body[..j]))
        else None
  }

  /** What the terminal displays for `s`. */
  function ShownText(s: string): string
  {
    match ParseHyperlink(s)
    case Some(link) => link.text
    case None => s
  }

  /** A terminal reads back exactly the target and the text the link was
      made from. */
  lemma HyperlinkRoundTrip(text: string, url: string)
    requires NoEscape(text) && NoEscape(url)
    ensures ParseHyperlink(CreateClickableLink(text, url)) == Some(Hyperlink(url, text))
  {
    var closing := LinkOpen + LinkClose;
    var afterUrl := LinkClose + (text + closing);
    var s := CreateClickableLink(text, url);
    assert s == LinkOpen + (url + afterUrl);
    assert IsPrefix(LinkOpen, s);
    var rest := s[|LinkOpen|..];
    assert rest == url + afterUrl;
    IndexOfEscAfter(url, afterUrl);
    assert rest[|url|..] == afterUrl;
    var body := afterUrl[|LinkClose|..];
    assert body == text + closing;
    IndexOfEscAfter(text, closing);
    assert body[|text|..] == closing;
    assert body[..|text|] == text;
  }

  /** The first escape of `a + b` is the head of `b` when `a` has none. */
  lemma IndexOfEscAfter(a: string, b: string)
    requires NoEscape(a) && b != [] && b[0] == Esc
    ensures IndexOfEsc(a + b) == |a|
  {
    assert (a + b)[|a|] == Esc;
  }

  /** Text without escapes is never taken for a hyperlink. */
  lemma PlainTextIsNoHyperlink(s: string)
    requires NoEscape(s)
    ensures ParseHyperlink(s) == None
  {
  }

  /** `BLOCK_EXPLORERS[network]` when it is a non-empty string. */
  function ExplorerBase(network: string): Option<string>
  {
    var explorers := BlockExplorers();
    if network in explorers && explorers[network] != "" then Some(explorers[network])
    else None
  }

  /** The address, linked to its explorer page when the network has one. */
  function FormatAddressLink(address: string, network: string): string
  {
    match ExplorerBase(network)
    case Some(base) => CreateClickableLink(address, base + "/" + address)
    case None => address
  }

  // One lemma per explorer URL: a single proof over all values of the map
  // literal at once is beyond what the solver finishes in reasonable time.
  lemma ArbiscanHasNoEscape()
    ensures NoEscape("https://arbiscan.io/address")
  {
  }

  lemma BasescanHasNoEscape()
    ensures NoEscape("https://basescan.org/address")
  {
  }

  lemma BerascanHasNoEscape()
    ensures NoEscape("https://berascan.com/address")
  {
  }

  lemma BotanixscanHasNoEscape()
    ensures NoEscape("https://botanixscan.io/address")
  {
  }

  lemma BscscanHasNoEscape()
    ensures NoEscape("https://bscscan.com/address")
  {
  }

  lemma EtherscanHasNoEscape()
    ensures NoEscape("https://etherscan.io/address")
  {
  }

  lemma SepoliaArbiscanHasNoEscape()
    ensures NoEscape("https://sepolia.arbiscan.io/address")
  {
  }

  lemma SepoliaEtherscanHasNoEscape()
    ensures NoEscape("https://sepolia.etherscan.io/address")
  {
  }

  /** No explorer URL contains an escape character. */
  lemma ExplorerBasesHaveNoEscape(network: string)
    ensures ExplorerBase(network).Some? ==> NoEscape(ExplorerBase(network).value)
  {
    if network == "arbitrum-mainnet" {
      ArbiscanHasNoEscape();
    }
    else if network == "base-mainnet" {
      BasescanHasNoEscape();
    }
    else if network == "bera-mainnet" {
      BerascanHasNoEscape();
    }
    else if network == "botanix-mainnet" {
      BotanixscanHasNoEscape();
    }
    else if network == "bsc-mainnet" {
      BscscanHasNoEscape();
    }
    else if network == "ethereum-mainnet" {
      EtherscanHasNoEscape();
    }
    else if network == "arbitrum-testnet" {
      SepoliaArbiscanHasNoEscape();
    }
    else if network == "ethereum-testnet" {
      SepoliaEtherscanHasNoEscape();
    }
  }

  /** The terminal always shows the plain address; it is a link to
      `<explorer>/<address>` exactly when the network has an explorer. */
  lemma AddressLinkShowsAddress(address: string, network: string)
    requires NoEscape(address)
    ensures ShownText(FormatAddressLink(address, network)) == address
    ensures ParseHyperlink(FormatAddressLink(address, network)).Some? <==> ExplorerBase(network).Some?
    ensures ExplorerBase(network).Some? ==>
      ParseHyperlink(FormatAddressLink(address, network))
        == Some(Hyperlink(ExplorerBase(network).value + "/" + address, address))
  {
    match ExplorerBase(network)
    case Some(base) =>
      ExplorerBasesHaveNoEscape(network);
      var url := base + "/" + address;
      assert NoEscape(url) by {
        forall k | 0 <= k < |url| ensures url[k] != Esc {
          if k < |base| { assert url[k] == base[k]; }
          else if k > |base| { assert url[k] == address[k - |base| - 1]; }
        }
      }
      HyperlinkRoundTrip(address, url);
    case None =>
      PlainTextIsNoHyperlink(address);
  }

  /** `marketPair.replace(/_/g, '-')` */
  function DisplayName(pair: string): (name: string)
    ensures |name| == |pair|
    ensures forall i :: 0 <= i < |pair| ==> name[i] == (if pair[i] == '_' then '-' else pair[i])
  {
    if pair == [] then []
    else [if pair[0] == '_' then '-' else pair[0]] + DisplayName(pair[1..])
  }

  // ---------------------------------------------------------------------
  // Artifact file names: (GlvToken|MarketToken)_(Adapter|OFT)_(.+)\.json
  // ---------------------------------------------------------------------

  datatype TokenKind = GlvToken | MarketToken
  datatype ContractKind = Adapter | OFT

  datatype Artifact = Artifact(token: TokenKind, contract: ContractKind, marketPair: string)

  const JsonSuffix: string := ".json"

  function TokenKindName(t: TokenKind): string
  {
    match t
    case GlvToken => "GlvToken"
    case MarketToken => "MarketToken"
  }

  function ContractKindName(c: ContractKind): string
  {
    match c
    case Adapter => "Adapter"
    case OFT => "OFT"
  }

  /** `GlvToken` files hold GLV tokens; every other artifact is a GM token. */
  function CategoryOf(t: TokenKind): Category
  {
    if t == GlvToken then GLV else GM
  }

  /** The characters a regular-expression `.` does not match. */
  predicate IsLineTerminator(c: char)
  {
    c == '\n' || c == '\r' || c == '\U{2028}' || c == '\U{2029}'
  }

  /** What `(.+)` accepts: at least one character, none a line terminator. */
  predicate IsPairText(s: string)
  {
    |s| > 0 && forall i :: 0 <= i < |s| ==> !IsLineTerminator(s[i])
  }

  /** The artifact file name an (token, contract, pair) triple is stored under. */
  function FileName(a: Artifact): string
  {
    TokenKindName(a.token) + "_" + ContractKindName(a.contract) + "_" + a.marketPair + JsonSuffix
  }

  function ParseTokenKind(name: string): (r: Option<TokenKind>)
    ensures r.Some? ==> IsPrefix(TokenKindName(r.value) + "_", name)
  {
    if IsPrefix("GlvToken_", name) then Some(GlvToken)
    else if IsPrefix("MarketToken_", name) then Some(MarketToken)
    else None
  }

  function ParseContractKind(name: string): (r: Option<ContractKind>)
    ensures r.Some? ==> IsPrefix(ContractKindName(r.value) + "_", name)
  {
    if IsPrefix("Adapter_", name) then Some(Adapter)
    else if IsPrefix("OFT_", name) then Some(OFT)
    else None
  }

  /** `(.+)\.json$` on what follows the contract kind: the market pair. */
  function ParsePairPart(tail: string): (r: Option<string>)
    ensures r.Some? ==> IsPairText(r.value) && tail == r.value + JsonSuffix
  {
    if EndsWith(tail, JsonSuffix) && IsPairText(tail[..|tail| - |JsonSuffix|])
    then Some(tail[..|tail| - |JsonSuffix|])
    else None
  }

  lemma ParsePairPartOf(pair: string)
    requires IsPairText(pair)
    ensures ParsePairPart(pair + JsonSuffix) == Some(pair)
  {
    var tail := pair + JsonSuffix;
    assert tail[..|tail| - |JsonSuffix|] == pair;
  }

  /** The anchored match of line 95: a tagged triple, or None when the file
      is not a bridge artifact. */
  function ParseFileName(name: string): Option<Artifact>
  {
    match ParseTokenKind(name)
    case None => None
    case Some(t) => ParseAfterToken(t, name[|TokenKindName(t)| + 1..])
  }

  /** The rest of the match once the token kind and its `_` are consumed. */
  function ParseAfterToken(t: TokenKind, rest: string): Option<Artifact>
  {
    match ParseContractKind(rest)
    case None => None
    case Some(c) =>
      match ParsePairPart(rest[|ContractKindName(c)| + 1..])
      case None => None
      case Some(pair) => Some(Artifact(t, c, pair))
  }

  lemma ParseTokenKindOf(t: TokenKind, rest: string)
    ensures ParseTokenKind(TokenKindName(t) + "_" + rest) == Some(t)
  {
    var name := TokenKindName(t) + "_" + rest;
    if t == MarketToken {
      assert name[0] == 'M';
      assert !IsPrefix("GlvToken_", name);
    }
  }

  lemma ParseContractKindOf(c: ContractKind, rest: string)
    ensures ParseContractKind(ContractKindName(c) + "_" + rest) == Some(c)
  {
    var name := ContractKindName(c) + "_" + rest;
    if c == OFT {
      assert name[0] == 'O';
      assert !IsPrefix("Adapter_", name);
    }
  }

  /** `ParseFileName` from the pieces it splits a name into. */
  lemma ParseFileNameFromParts(name: string, t: TokenKind, c: ContractKind, rest: string, tail: string, pair: string)
    requires ParseTokenKind(name) == Some(t) && name[|TokenKindName(t)| + 1..] == rest
    requires ParseContractKind(rest) == Some(c) && rest[|ContractKindName(c)| + 1..] == tail
    requires ParsePairPart(tail) == Some(pair)
    ensures ParseFileName(name) == Some(Artifact(t, c, pair))
  {
    assert ParseAfterToken(t, rest) == Some(Artifact(t, c, pair));
  }

  /** Every artifact name parses back to its triple; the whole remainder,
      underscores included, is the market pair. */
  lemma ParseFileNameOfFileName(a: Artifact)
    requires IsPairText(a.marketPair)
    ensures ParseFileName(FileName(a)) == Some(a)
  {
    var tail := a.marketPair + JsonSuffix;
    var rest := ContractKindName(a.contract) + "_" + tail;
    var name := TokenKindName(a.token) + "_" + rest;
    FileNameParts(a);
    assert FileName(a) == name;
    ParseTokenKindOf(a.token, rest);
    ParseContractKindOf(a.contract, tail);
    ParsePairPartOf(a.marketPair);
    assert name[|TokenKindName(a.token)| + 1..] == rest;
    assert rest[|ContractKindName(a.contract)| + 1..] == tail;
    ParseFileNameFromParts(name, a.token, a.contract, rest, tail, a.marketPair);
  }

  /** Only artifact names parse, and a parsed name is rebuilt exactly from
      its triple. */
  lemma ParseFileNameSound(name: string)
    ensures ParseFileName(name).Some? ==>
      IsPairText(ParseFileName(name).value.marketPair) && FileName(ParseFileName(name).value) == name
  {
    if ParseFileName(name).Some? {
      var t := ParseTokenKind(name).value;
      var rest := name[|TokenKindName(t)| + 1..];
      SplitPrefix(TokenKindName(t) + "_", name);
      var c := ParseContractKind(rest).value;
      var tail := rest[|ContractKindName(c)| + 1..];
      SplitPrefix(ContractKindName(c) + "_", rest);
      var pair := ParsePairPart(tail).value;
      var a := Artifact(t, c, pair);
      assert ParseFileName(name) == Some(a);
      FileNameParts(a);
    }
  }

  lemma FileNameParts(a: Artifact)
    ensures FileName(a)
      == (TokenKindName(a.token) + "_") + ((ContractKindName(a.contract) + "_") + (a.marketPair + JsonSuffix))
  {
  }

  // ---------------------------------------------------------------------
  // Inputs: the deployments directory, the task flags
  // ---------------------------------------------------------------------

  /** The outcome of `JSON.parse(fs.readFileSync(file))`: the read or the
      parse throws, the document is `null`, or it is another JSON value whose
      `address` property is present or undefined. */
  datatype FileContent = Unreadable | JsonNull | JsonValue(address: Option<string>)

  datatype FileEntry = FileEntry(name: string, content: FileContent)

  /** An entry of the deployments directory. */
  datatype DirEntry = Directory(name: string, files: seq<FileEntry>) | NotDirectory(name: string)

  /** The task's parameters; an empty `filterNetworks` means it was not given. */
  datatype ListArgs = ListArgs(filterNetworks: string, mainnet: bool, testnet: bool)

  /** The network filter: the first applicable rule of exact name,
      mainnet-only, testnet-only, decides. */
  predicate NetworkSelected(args: ListArgs, network: string)
  {
    if args.filterNetworks != "" then network == args.filterNetworks
    else if args.mainnet then Contains(network, "mainnet") && !Contains(network, "testnet")
    else if args.testnet then Contains(network, "testnet")
    else true
  }

  /** The network directories scanned, in directory order. */
  function SelectNetworks(entries: seq<DirEntry>, args: ListArgs): (dirs: seq<DirEntry>)
    ensures forall i :: 0 <= i < |dirs| ==> dirs[i].Directory?
    ensures args.filterNetworks != "" ==>
      forall d :: d in dirs <==> d in entries && d.Directory? && d.name == args.filterNetworks
    ensures args.filterNetworks == "" && args.mainnet ==>
      forall d :: d in dirs <==>
        d in entries && d.Directory? && Contains(d.name, "mainnet") && !Contains(d.name, "testnet")
    ensures args.filterNetworks == "" && !args.mainnet && args.testnet ==>
      forall d :: d in dirs <==> d in entries && d.Directory? && Contains(d.name, "testnet")
    ensures args.filterNetworks == "" && !args.mainnet && !args.testnet ==>
      forall d :: d in dirs <==> d in entries && d.Directory?
  {
    Filter(entries, (d: DirEntry) => d.Directory? && NetworkSelected(args, d.name))
  }

  /** Line 86: JSON files other than the compiler-input bundles. */
  predicate IsCandidateFile(name: string)
  {
    EndsWith(name, JsonSuffix) && !Contains(name, "solcInputs")
  }

  function CandidateFiles(files: seq<FileEntry>): (r: seq<FileEntry>)
    ensures forall f :: f in r <==> f in files && IsCandidateFile(f.name)
  {
    Filter(files, (f: FileEntry) => IsCandidateFile(f.name))
  }

  /** Every artifact name passes the `.json` half of the candidate filter. */
  lemma ArtifactNamesEndInJson(name: string)
    ensures ParseFileName(name).Some? ==> EndsWith(name, JsonSuffix)
  {
    ParseFileNameSound(name);
    if ParseFileName(name).Some? {
      var a := ParseFileName(name).value;
      assert name == (TokenKindName(a.token) + "_" + ContractKindName(a.contract) + "_" + a.marketPair) + JsonSuffix;
    }
  }

  // ---------------------------------------------------------------------
  // Grouping
  // ---------------------------------------------------------------------

  datatype Record = Record(network: string, address: Option<string>, contractType: ContractKind)

  /** The two buckets of one market pair. */
  datatype Group = Group(gm: seq<Record>, glv: seq<Record>)

  /** The `grouped` object: its own keys in creation order, and their groups. */
  datatype Grouped = Grouped(order: seq<string>, groups: map<string, Group>)

  ghost predicate Valid(g: Grouped)
  {
    && (forall i, j :: 0 <= i < j < |g.order| ==> g.order[i] != g.order[j])
    && (forall p :: p in g.groups <==> p in g.order)
  }

  /** Names every plain object inherits. `grouped[name]` is already truthy for
      them, so no group is created and the push throws. */
  const PrototypeKeys: set<string> := {
    "constructor", "__proto__", "__defineGetter__", "__defineSetter__",
    "__lookupGetter__", "__lookupSetter__", "hasOwnProperty", "isPrototypeOf",
    "propertyIsEnumerable", "toLocaleString", "toString", "valueOf"
  }

  /** What processing one candidate file does to `grouped`. */
  datatype Event =
    | Warned                 // an exception was caught and logged
    | Skipped                // the name is not an artifact name
    | Touched(pair: string)  // the group was created, then reading `address` of null threw
    | Added(pair: string, category: Category, record: Record)

  /** Lines 91-112 for one file. The content is parsed before the name is
      matched, so an unreadable file is a warning whatever its name. */
  function FileEvent(network: string, f: FileEntry): (e: Event)
    ensures e.Added? <==>
      f.content.JsonValue? && ParseFileName(f.name).Some? && ParseFileName(f.name).value.marketPair !in PrototypeKeys
    ensures e.Touched? <==>
      f.content.JsonNull? && ParseFileName(f.name).Some? && ParseFileName(f.name).value.marketPair !in PrototypeKeys
    ensures (e.Added? || e.Touched?) ==> e.pair == ParseFileName(f.name).value.marketPair
    ensures e.Added? ==>
      && (e.category == GLV <==> ParseFileName(f.name).value.token == GlvToken)
      && e.record == Record(network, f.content.address, ParseFileName(f.name).value.contract)
    ensures e.Skipped? <==> !f.content.Unreadable? && ParseFileName(f.name).None?
  {
    if f.content.Unreadable? then Warned
    else
      match ParseFileName(f.name)
      case None => Skipped
      case Some(a) =>
        if a.marketPair in PrototypeKeys then Warned
        else if f.content.JsonNull? then Touched(a.marketPair)
        else Added(a.marketPair, CategoryOf(a.token), Record(network, f.content.address, a.contract))
  }

  function FileEvents(network: string, files: seq<FileEntry>): (es: seq<Event>)
    ensures |es| == |files|
    ensures forall i :: 0 <= i < |files| ==> es[i] == FileEvent(network, files[i])
  {
    seq(|files|, i requires 0 <= i < |files| => FileEvent(network, files[i]))
  }

  function DirEvents(d: DirEntry): seq<Event>
  {
    match d
    case Directory(name, files) => FileEvents(name, CandidateFiles(files))
    case NotDirectory(_) => []
  }

  /** The events of a whole scan: directory by directory, file by file. */
  function ScanEvents(dirs: seq<DirEntry>): seq<Event>
  {
    if dirs == [] then [] else ScanEvents(dirs[..|dirs| - 1]) + DirEvents(dirs[|dirs| - 1])
  }

  /** The group of `p`, created with two empty buckets if it is absent. */
  function EnsureGroup(g: Grouped, p: string): (r: Grouped)
    ensures p in r.groups
  {
    if p in g.groups then g else Grouped(g.order + [p], g.groups[p := Group([], [])])
  }

  function Apply(g: Grouped, e: Event): Grouped
  {
    match e
    case Warned => g
    case Skipped => g
    case Touched(p) => EnsureGroup(g, p)
    case Added(p, c, r) =>
      var h := EnsureGroup(g, p);
      Grouped(h.order, h.groups[p := AddRecord(h.groups[p], c, r)])
  }

  /** `grouped[pair][category].push(record)`. */
  function AddRecord(b: Group, c: Category, r: Record): (nb: Group)
    ensures |nb.gm| + |nb.glv| == |b.gm| + |b.glv| + 1
  {
    if c == GM then Group(b.gm + [r], b.glv) else Group(b.gm, b.glv + [r])
  }

  /** `grouped` after the given events, starting from `{}`. */
  function GroupEvents(es: seq<Event>): Grouped
  {
    if es == [] then Grouped([], map[]) else Apply(GroupEvents(es[..|es| - 1]), es[|es| - 1])
  }

  /** `grouped[p][c]`, or the empty sequence when `p` has no group. */
  function Bucket(g: Grouped, p: string, c: Category): seq<Record>
  {
    if p !in g.groups then []
    else if c == GM then g.groups[p].gm
    else g.groups[p].glv
  }

  /** The records the events add for pair `p` and category `c`, in order. */
  function RecordsFor(es: seq<Event>, p: string, c: Category): seq<Record>
  {
    if es == [] then []
    else
      var e := es[|es| - 1];
      RecordsFor(es[..|es| - 1], p, c) + (if e.Added? && e.pair == p && e.category == c then [e.record] else [])
  }

  function AddedCount(es: seq<Event>): nat
  {
    if es == [] then 0 else AddedCount(es[..|es| - 1]) + (if es[|es| - 1].Added? then 1 else 0)
  }

  predicate Creates(e: Event, p: string)
  {
    (e.Touched? || e.Added?) && e.pair == p
  }

  /** Keys are created once each and every key has a group. */
  lemma {:induction false} GroupEventsValid(es: seq<Event>)
    ensures Valid(GroupEvents(es))
  {
    if es != [] {
      GroupEventsValid(es[..|es| - 1]);
    }
  }

  /** Each accepted file's record is appended to the bucket of its pair and
      category and to no other; each bucket keeps the scan order. */
  lemma {:induction false} BucketsHoldTheirRecords(es: seq<Event>, p: string, c: Category)
    ensures Bucket(GroupEvents(es), p, c) == RecordsFor(es, p, c)
  {
    if es != [] {
      BucketsHoldTheirRecords(es[..|es| - 1], p, c);
    }
  }

  /** A pair has a group exactly when some file created it. */
  lemma {:induction false} GroupKeys(es: seq<Event>, p: string)
    ensures p in GroupEvents(es).groups <==> exists i :: 0 <= i < |es| && Creates(es[i], p)
  {
    if es != [] {
      var init := es[..|es| - 1];
      GroupKeys(init, p);
      if exists i :: 0 <= i < |init| && Creates(init[i], p) {
        var i :| 0 <= i < |init| && Creates(init[i], p);
        assert es[i] == init[i];
      }
      if exists i :: 0 <= i < |es| && Creates(es[i], p) {
        var i :| 0 <= i < |es| && Creates(es[i], p);
        if i < |init| { assert init[i] == es[i]; }
      }
    }
  }

  // ---------------------------------------------------------------------
  // Summary
  // ---------------------------------------------------------------------

  function GroupSize(groups: map<string, Group>, p: string): nat
  {
    if p in groups then |groups[p].gm| + |groups[p].glv| else 0
  }

  /** The sum over `keys` of each group's two bucket lengths. */
  function SumSizes(keys: seq<string>, groups: map<string, Group>): nat
  {
    if keys == [] then 0 else SumSizes(keys[..|keys| - 1], groups) + GroupSize(groups, keys[|keys| - 1])
  }

  /** Line 158: `totalContracts`, summed over the groups. */
  function TotalContracts(g: Grouped): nat
  {
    SumSizes(g.order, g.groups)
  }

  lemma {:induction false} SumSizesAppend(a: seq<string>, b: seq<string>, groups: map<string, Group>)
    ensures SumSizes(a + b, groups) == SumSizes(a, groups) + SumSizes(b, groups)
    decreases |b|
  {
    if b == [] {
      assert a + b == a;
    } else {
      assert (a + b)[..|a + b| - 1] == a + b[..|b| - 1];
      assert (a + b)[|a + b| - 1] == b[|b| - 1];
      SumSizesAppend(a, b[..|b| - 1], groups);
    }
  }

  /** Taking one key out of the sum subtracts its group's size. */
  lemma SumSizesRemove(a: seq<string>, k: nat, groups: map<string, Group>)
    requires k < |a|
    ensures SumSizes(a, groups) == SumSizes(a[..k] + a[k + 1..], groups) + GroupSize(groups, a[k])
  {
    assert a == (a[..k] + [a[k]]) + a[k + 1..];
    SumSizesAppend(a[..k] + [a[k]], a[k + 1..], groups);
    SumSizesAppend(a[..k], a[k + 1..], groups);
    assert (a[..k] + [a[k]])[..k] == a[..k];
  }

  /** The sum does not depend on the order of the keys. */
  lemma {:induction false} SumSizesPermutation(a: seq<string>, b: seq<string>, groups: map<string, Group>)
    requires multiset(a) == multiset(b)
    ensures SumSizes(a, groups) == SumSizes(b, groups)
    decreases |b|
  {
    if b != [] {
      var x := b[|b| - 1];
      var b' := b[..|b| - 1];
      assert b == b' + [x];
      assert x in multiset(a);
      var k :| 0 <= k < |a| && a[k] == x;
      var a' := a[..k] + a[k + 1..];
      assert multiset(a') == multiset(b') by {
        assert a == a[..k] + [x] + a[k + 1..];
        assert multiset(a) == multiset(a[..k]) + multiset{x} + multiset(a[k + 1..]);
        assert multiset(a') == multiset(a) - multiset{x};
        assert multiset(b') == multiset(b) - multiset{x};
      }
      SumSizesPermutation(a', b', groups);
      SumSizesRemove(a, k, groups);
    }
  }

  /** Changing one group that occurs once among the keys changes the sum by
      that group's change in size. */
  lemma {:induction false} SumSizesUpdate(keys: seq<string>, groups: map<string, Group>, p: string, b: Group)
    requires p in groups
    requires forall i, j :: 0 <= i < j < |keys| ==> keys[i] != keys[j]
    ensures SumSizes(keys, groups[p := b]) + GroupSize(groups, p)
         == SumSizes(keys, groups) + (if p in keys then |b.gm| + |b.glv| else GroupSize(groups, p))
    decreases |keys|
  {
    if keys != [] {
      var init := keys[..|keys| - 1];
      SumSizesUpdate(init, groups, p, b);
      if keys[|keys| - 1] == p {
        assert p !in init;
      }
      assert p in keys <==> p in init || keys[|keys| - 1] == p;
    }
  }

  /** Creating an empty group leaves the total unchanged. */
  lemma EnsureGroupTotal(g: Grouped, p: string)
    requires Valid(g)
    ensures Valid(EnsureGroup(g, p))
    ensures TotalContracts(EnsureGroup(g, p)) == TotalContracts(g)
  {
    if p !in g.groups {
      var h := EnsureGroup(g, p);
      assert h.order == g.order + [p];
      assert h.order[..|h.order| - 1] == g.order;
      assert GroupSize(h.groups, p) == 0;
      SumSizesNotIn(g.order, g.groups, h.groups);
      assert TotalContracts(h) == SumSizes(g.order, h.groups) + GroupSize(h.groups, p);
    }
  }

  /** The summary total equals the number of accepted files. */
  lemma {:induction false} TotalCountsRecords(es: seq<Event>)
    ensures TotalContracts(GroupEvents(es)) == AddedCount(es)
  {
    if es != [] {
      var init := es[..|es| - 1];
      TotalCountsRecords(init);
      GroupEventsValid(init);
      ApplyTotal(GroupEvents(init), es[|es| - 1]);
    }
  }

  /** One event adds one to the total when it adds a record, and nothing otherwise. */
  lemma ApplyTotal(g: Grouped, e: Event)
    requires Valid(g)
    ensures TotalContracts(Apply(g, e)) == TotalContracts(g) + (if e.Added? then 1 else 0)
  {
    match e
    case Warned =>
    case Skipped =>
    case Touched(p) => EnsureGroupTotal(g, p);
    case Added(p, c, r) => AddedTotal(g, p, c, r);
  }

  /** Adding one record to its bucket raises the total by one. */
  lemma AddedTotal(g: Grouped, p: string, c: Category, r: Record)
    requires Valid(g)
    ensures TotalContracts(Apply(g, Added(p, c, r))) == TotalContracts(g) + 1
  {
    var h := EnsureGroup(g, p);
    var next := Grouped(h.order, h.groups[p := AddRecord(h.groups[p], c, r)]);
    assert Apply(g, Added(p, c, r)) == next;
    EnsureGroupTotal(g, p);
    PushTotal(h, p, AddRecord(h.groups[p], c, r));
    assert TotalContracts(next) == TotalContracts(g) + 1;
  }

  /** Replacing one group by a group with one more record raises the total by one. */
  lemma PushTotal(h: Grouped, p: string, nb: Group)
    requires Valid(h) && p in h.groups
    requires |nb.gm| + |nb.glv| == GroupSize(h.groups, p) + 1
    ensures TotalContracts(Grouped(h.order, h.groups[p := nb])) == TotalContracts(h) + 1
  {
    assert p in h.order;
    SumSizesUpdate(h.order, h.groups, p, nb);
  }

  /** Keys outside the difference of two maps see the same sizes. */
  lemma {:induction false} SumSizesNotIn(keys: seq<string>, m1: map<string, Group>, m2: map<string, Group>)
    requires forall p :: p in keys ==> (p in m1 <==> p in m2) && (p in m1 ==> m1[p] == m2[p])
    ensures SumSizes(keys, m1) == SumSizes(keys, m2)
    decreases |keys|
  {
    if keys != [] {
      SumSizesNotIn(keys[..|keys| - 1], m1, m2);
    }
  }

  // ---------------------------------------------------------------------
  // The scan (lines 80-114)
  // ---------------------------------------------------------------------

  /** The body of the `try` block of lines 91-109 for one candidate file. */
  method ProcessFile(grouped: Grouped, network: string, file: FileEntry) returns (next: Grouped)
    ensures next == Apply(grouped, FileEvent(network, file))
  {
    next := grouped;
    if file.content.Unreadable? {
      return;  // the read or `JSON.parse` threw: warning
    }
    var parsed := ParseFileName(file.name);
    if parsed.None? {
      return;  // not an artifact name
    }
    var pair := parsed.value.marketPair;
    var category := CategoryOf(parsed.value.token);
    if pair in PrototypeKeys {
      return;  // `grouped[pair][category]` is undefined, so the push throws: warning
    }
    if pair !in next.groups {
      next := Grouped(next.order + [pair], next.groups[pair := Group([], [])]);
    }
    if file.content.JsonNull? {
      return;  // reading `address` of null throws after the group exists: warning
    }
    var record := Record(network, file.content.address, parsed.value.contract);
    var bucket := next.groups[pair];
    if category == GM {
      bucket := bucket.(gm := bucket.gm + [record]);
    } else {
      bucket := bucket.(glv := bucket.glv + [record]);
    }
    next := next.(groups := next.groups[pair := bucket]);
  }

  /** Walks the selected network directories and their candidate files,
      creating groups lazily and appending one record per accepted file. */
  method ScanDeployments(entries: seq<DirEntry>, args: ListArgs) returns (grouped: Grouped)
    ensures grouped == GroupEvents(ScanEvents(SelectNetworks(entries, args)))
  {
    var networks := SelectNetworks(entries, args);
    grouped := Grouped([], map[]);
    for n := 0 to |networks|
      invariant grouped == GroupEvents(ScanEvents(networks[..n]))
    {
      grouped := ScanNetwork(grouped, networks[n], ScanEvents(networks[..n]));
      ScanEventsSnoc(networks, n);
    }
    assert networks[..|networks|] == networks;
  }

  /** The inner loop of the scan: the candidate files of one network
      directory, in directory order. */
  method ScanNetwork(grouped: Grouped, dir: DirEntry, ghost done: seq<Event>) returns (next: Grouped)
    requires grouped == GroupEvents(done)
    ensures next == GroupEvents(done + DirEvents(dir))
  {
    next := grouped;
    if dir.NotDirectory? {
      assert done + DirEvents(dir) == done;
      return;
    }
    var files := CandidateFiles(dir.files);
    ghost var es := done;
    assert FileEvents(dir.name, files[..0]) == [];
    for k := 0 to |files|
      invariant es == done + FileEvents(dir.name, files[..k])
      invariant next == GroupEvents(es)
    {
      var e := FileEvent(dir.name, files[k]);
      next := ProcessFile(next, dir.name, files[k]);
      GroupEventsSnoc(es, e);
      FileEventsSnoc(dir.name, files, k);
      AppendAssoc(done, FileEvents(dir.name, files[..k]), [e]);
      es := es + [e];
    }
    assert files[..|files|] == files;
  }

  lemma AppendAssoc<T>(a: seq<T>, b: seq<T>, c: seq<T>)
    ensures (a + b) + c == a + (b + c)
  {
  }

  lemma FileEventsSnoc(network: string, files: seq<FileEntry>, k: nat)
    requires k < |files|
    ensures FileEvents(network, files[..k + 1]) == FileEvents(network, files[..k]) + [FileEvent(network, files[k])]
  {
  }

  lemma GroupEventsSnoc(es: seq<Event>, e: Event)
    ensures GroupEvents(es + [e]) == Apply(GroupEvents(es), e)
  {
    assert (es + [e])[..|es|] == es;
  }

  lemma ScanEventsSnoc(dirs: seq<DirEntry>, n: nat)
    requires n < |dirs|
    ensures ScanEvents(dirs[..n + 1]) == ScanEvents(dirs[..n]) + DirEvents(dirs[n])
  {
    assert dirs[..n + 1][..n] == dirs[..n];
  }

  // ---------------------------------------------------------------------
  // The report (lines 116-159)
  // ---------------------------------------------------------------------

  /** One printed deployment: network, (linked) address, contract kind. */
  datatype DeploymentLine = DeploymentLine(network: string, address: string, contractType: ContractKind)

  /** The block printed for one market pair: its number, its key and title,
      and the lines under "GM Tokens" and "GLV Tokens". */
  datatype PairSection = PairSection(
    number: nat, marketPair: string, title: string, gm: seq<DeploymentLine>, glv: seq<DeploymentLine>)

  datatype ListOutcome =
    | NoDeploymentsDirectory
    | NoDeploymentsFound
    | Listed(sections: seq<PairSection>, pairCount: nat, totalContracts: nat)

  /** How a template literal renders the `address` property. */
  function AddressText(a: Option<string>): string
  {
    match a
    case Some(s) => s
    case None => "undefined"
  }

  function Line(r: Record): DeploymentLine
  {
    DeploymentLine(r.network, FormatAddressLink(AddressText(r.address), r.network), r.contractType)
  }

  function Lines(rs: seq<Record>): (ls: seq<DeploymentLine>)
    ensures |ls| == |rs|
    ensures forall i :: 0 <= i < |rs| ==> ls[i] == Line(rs[i])
  {
    seq(|rs|, i requires 0 <= i < |rs| => Line(rs[i]))
  }

  function Section(i: nat, pair: string, g: Grouped): PairSection
  {
    PairSection(i + 1, pair, DisplayName(pair), Lines(Bucket(g, pair, GM)), Lines(Bucket(g, pair, GLV)))
  }

  /** The loop of lines 126-155 over the sorted pairs. */
  function Sections(pairs: seq<string>, g: Grouped): (ss: seq<PairSection>)
    ensures |ss| == |pairs|
    ensures forall i :: 0 <= i < |pairs| ==> ss[i] == Section(i, pairs[i], g)
  {
    seq(|pairs|, i requires 0 <= i < |pairs| => Section(i, pairs[i], g))
  }

  /** What the task prints for `grouped`: the pairs in ascending order, or
      the "no deployments found" message. */
  function Report(g: Grouped): ListOutcome
  {
    var pairs := SortStrings(g.order);
    if pairs == [] then NoDeploymentsFound
    else Listed(Sections(pairs, g), |pairs|, TotalContracts(g))
  }

  /** The number of deployment lines printed in the given sections. */
  function LinesPrinted(ss: seq<PairSection>): nat
  {
    if ss == [] then 0 else LinesPrinted(ss[..|ss| - 1]) + |ss[|ss| - 1].gm| + |ss[|ss| - 1].glv|
  }

  lemma {:induction false} LinesPrintedSum(ss: seq<PairSection>, keys: seq<string>, g: Grouped)
    requires |ss| == |keys|
    requires forall i :: 0 <= i < |ss| ==> |ss[i].gm| + |ss[i].glv| == GroupSize(g.groups, keys[i])
    ensures LinesPrinted(ss) == SumSizes(keys, g.groups)
    decreases |ss|
  {
    if ss != [] {
      LinesPrintedSum(ss[..|ss| - 1], keys[..|keys| - 1], g);
    }
  }

  /** The sorted keys are exactly the group keys, without repetitions. */
  lemma SortedKeys(g: Grouped)
    requires Valid(g)
    ensures var pairs := SortStrings(g.order);
      && (forall p :: p in pairs <==> p in g.groups)
      && (forall i, j :: 0 <= i < j < |pairs| ==> Less(pairs[i], pairs[j]))
      && |pairs| == |g.groups|
  {
    var pairs := SortStrings(g.order);
    forall p ensures p in pairs <==> p in g.order {
      assert p in pairs <==> p in multiset(pairs);
      assert p in g.order <==> p in multiset(g.order);
    }
    DistinctAfterPermutation(g.order, pairs);
    SortedDistinctIsStrict(pairs);
    DistinctCardinality(g.order);
    assert g.groups.Keys == set p | p in g.order;
  }

  /** The report says "no deployments found" exactly when there is no
      group; otherwise it prints one section per sorted key and counts the
      groups. */
  lemma ReportShape(g: Grouped)
    requires Valid(g)
    ensures Report(g).NoDeploymentsFound? <==> g.groups == map[]
    ensures Report(g).Listed? ==>
      Report(g).sections == Sections(SortStrings(g.order), g) && Report(g).pairCount == |g.groups|
  {
    SortedKeys(g);
  }

  /** The printed sections list every group once. */
  lemma ReportLists(g: Grouped)
    requires Valid(g)
    ensures
      var ss := Sections(SortStrings(g.order), g);
      && |ss| == |g.groups|
      && (forall p :: p in g.groups <==> exists i :: 0 <= i < |ss| && ss[i].marketPair == p)
  {
    var pairs := SortStrings(g.order);
    var ss := Sections(pairs, g);
    SortedKeys(g);
    SectionsFollowKeys(pairs, g);
    forall p ensures p in g.groups <==> exists i :: 0 <= i < |ss| && ss[i].marketPair == p {
      assert p in g.groups <==> p in pairs;
    }
  }

  /** The sections come in strictly ascending key order, numbered from 1
      and titled with the pair's display name. */
  lemma ReportOrder(g: Grouped)
    requires Valid(g)
    ensures
      var ss := Sections(SortStrings(g.order), g);
      && (forall i, j :: 0 <= i < j < |ss| ==> Less(ss[i].marketPair, ss[j].marketPair))
      && (forall i :: 0 <= i < |ss| ==> ss[i].number == i + 1 && ss[i].title == DisplayName(ss[i].marketPair))
  {
    var pairs := SortStrings(g.order);
    var ss := Sections(pairs, g);
    SortedKeys(g);
    SectionsFollowKeys(pairs, g);
    forall i, j | 0 <= i < j < |ss| ensures Less(ss[i].marketPair, ss[j].marketPair) {
      assert ss[i].marketPair == pairs[i] && ss[j].marketPair == pairs[j];
    }
  }

  lemma SectionsFollowKeys(pairs: seq<string>, g: Grouped)
    ensures
      var ss := Sections(pairs, g);
      && (forall p :: p in pairs <==> exists i :: 0 <= i < |ss| && ss[i].marketPair == p)
      && (forall i :: 0 <= i < |ss| ==> ss[i].marketPair == pairs[i])
      && (forall i :: 0 <= i < |ss| ==> ss[i].number == i + 1 && ss[i].title == DisplayName(ss[i].marketPair))
  {
    var ss := Sections(pairs, g);
    forall p | p in pairs ensures exists i :: 0 <= i < |ss| && ss[i].marketPair == p {
      var i :| 0 <= i < |pairs| && pairs[i] == p;
      assert ss[i].marketPair == p;
    }
  }

  /** The summary total is the number of deployment lines the report shows. */
  lemma ReportTotalIsLinesShown(g: Grouped)
    requires Valid(g)
    ensures Report(g).Listed? ==> Report(g).totalContracts == LinesPrinted(Report(g).sections)
  {
    var pairs := SortStrings(g.order);
    if pairs != [] {
      var ss := Sections(pairs, g);
      LinesPrintedSum(ss, pairs, g);
      SumSizesPermutation(g.order, pairs, g.groups);
    }
  }

  /** A sequence without repetitions has as many elements as its set. */
  lemma {:induction false} DistinctCardinality(s: seq<string>)
    requires forall i, j :: 0 <= i < j < |s| ==> s[i] != s[j]
    ensures |set p | p in s| == |s|
    decreases |s|
  {
    if s != [] {
      var init := s[..|s| - 1];
      DistinctCardinality(init);
      assert (set p | p in s) == (set p | p in init) + {s[|s| - 1]};
      assert s[|s| - 1] !in init;
    }
  }

  /** A permutation of a sequence without repetitions has none either. */
  lemma DistinctAfterPermutation(a: seq<string>, b: seq<string>)
    requires forall i, j :: 0 <= i < j < |a| ==> a[i] != a[j]
    requires multiset(a) == multiset(b)
    ensures forall i, j :: 0 <= i < j < |b| ==> b[i] != b[j]
  {
    forall x | x in multiset(a) ensures multiset(a)[x] == 1 {
      DistinctCount(a, x);
    }
    forall i, j | 0 <= i < j < |b| ensures b[i] != b[j] {
      RepeatedTwice(b, i, j);
    }
  }

  /** Equal elements at two positions are counted twice. */
  lemma RepeatedTwice(b: seq<string>, i: nat, j: nat)
    requires i < j < |b|
    ensures b[i] == b[j] ==> multiset(b)[b[i]] >= 2
  {
    assert b == b[..i] + [b[i]] + b[i + 1..j] + [b[j]] + b[j + 1..];
  }

  lemma {:induction false} DistinctCount(a: seq<string>, x: string)
    requires forall i, j :: 0 <= i < j < |a| ==> a[i] != a[j]
    requires x in a
    ensures multiset(a)[x] == 1
    decreases |a|
  {
    var init := a[..|a| - 1];
    assert a == init + [a[|a| - 1]];
    if x == a[|a| - 1] {
      assert x !in init;
      assert multiset(init)[x] == 0;
    } else {
      DistinctCount(init, x);
    }
  }

  // ---------------------------------------------------------------------
  // The task
  // ---------------------------------------------------------------------

  /** `lz:sdk:display-deployments`: `root` is the listing of `deployments/`,
      or None when that directory does not exist. */
  method ListDeployments(root: Option<seq<DirEntry>>, args: ListArgs) returns (outcome: ListOutcome)
    ensures root.None? <==> outcome.NoDeploymentsDirectory?
    ensures root.Some? ==>
      var es := ScanEvents(SelectNetworks(root.value, args));
      && (outcome.NoDeploymentsFound? <==> forall i :: 0 <= i < |es| ==> !es[i].Added? && !es[i].Touched?)
      && (outcome.Listed? ==> outcome.totalContracts == AddedCount(es) == LinesPrinted(outcome.sections))
      && outcome == Report(GroupEvents(es))
  {
    if root.None? {
      return NoDeploymentsDirectory;
    }
    var grouped := ScanDeployments(root.value, args);
    outcome := Report(grouped);
    ghost var es := ScanEvents(SelectNetworks(root.value, args));
    GroupEventsValid(es);
    ReportShape(grouped);
    ReportTotalIsLinesShown(grouped);
    TotalCountsRecords(es);
    assert grouped.groups == map[] <==> forall i :: 0 <= i < |es| ==> !es[i].Added? && !es[i].Touched? by {
      if grouped.groups != map[] {
        var p :| p in grouped.groups;
        GroupKeys(es, p);
      }
      forall i | 0 <= i < |es| && (es[i].Added? || es[i].Touched?) ensures grouped.groups != map[] {
        GroupKeys(es, es[i].pair);
        assert Creates(es[i], es[i].pair);
      }
    }
  }
}
