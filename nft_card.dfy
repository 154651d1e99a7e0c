/** The asset card: badge classes by status and by chain, the chain label,
    the block-explorer link, the abbreviated contract address, the capped
    attribute list, and the conditions under which each section shows. */
module NftCard {
  import opened JsValues
  import opened Assets

  /** The badge classes. */
  const GreenBadge := "bg-green-500/20 text-green-400 border-green-500/50"
  const YellowBadge := "bg-yellow-500/20 text-yellow-400 border-yellow-500/50"
  const BlueBadge := "bg-blue-500/20 text-blue-400 border-blue-500/50"
  const RedBadge := "bg-red-500/20 text-red-400 border-red-500/50"
  const PurpleBadge := "bg-purple-500/20 text-purple-400 border-purple-500/50"
  const CyanBadge := "bg-cyan-500/20 text-cyan-400 border-cyan-500/50"
  const GrayBadge := "bg-gray-500/20 text-gray-400 border-gray-500/50"

  /** The statuses with a badge colour of their own. */
  const KnownStatuses: set<string> := {Minted, Minting, Generating, Failed}

  /** `getStatusColor` */
  function StatusColor(status: string): (c: string)
    ensures status == Minted ==> c == GreenBadge
    ensures status == Minting ==> c == YellowBadge
    ensures status == Generating ==> c == BlueBadge
    ensures status == Failed ==> c == RedBadge
    ensures status !in KnownStatuses ==> c == GrayBadge
  {
    if status == Minted then GreenBadge
    else if status == Minting then YellowBadge
    else if status == Generating then BlueBadge
    else if status == Failed then RedBadge
    else GrayBadge
  }

  /** Each known status has a colour no other status shares. */
  lemma StatusColorsDistinct(s: string, t: string)
    requires s in KnownStatuses
    ensures StatusColor(s) == StatusColor(t) <==> s == t
  {
  }

  /** The chains with a badge colour of their own. */
  const KnownChains: set<string> := {"polygon-amoy", "ethereum-sepolia", "base-sepolia"}

  /** `getChainColor` */
  function ChainColor(chain: string): (c: string)
    ensures chain == "polygon-amoy" ==> c == PurpleBadge
    ensures chain == "ethereum-sepolia" ==> c == BlueBadge
    ensures chain == "base-sepolia" ==> c == CyanBadge
    ensures chain !in KnownChains ==> c == GrayBadge
  {
    if chain == "polygon-amoy" then PurpleBadge
    else if chain == "ethereum-sepolia" then BlueBadge
    else if chain == "base-sepolia" then CyanBadge
    else GrayBadge
  }

  /** Each known chain has a colour no other chain shares. */
  lemma ChainColorsDistinct(c: string, d: string)
    requires c in KnownChains
    ensures ChainColor(c) == ChainColor(d) <==> c == d
  {
  }

  /** The explorer's transaction page prefix for a chain: the three test
      networks have their own, anything else goes to Polygon's main net. */
  function ExplorerBase(chain: string): (b: string)
    ensures chain == "polygon-amoy" ==> b == "https://amoy.polygonscan.com/tx/"
    ensures chain == "ethereum-sepolia" ==> b == "https://sepolia.etherscan.io/tx/"
    ensures chain == "base-sepolia" ==> b == "https://sepolia.basescan.org/tx/"
    ensures chain !in KnownChains ==> b == "https://polygonscan.com/tx/"
    ensures |b| >= 4 && b[|b| - 4..] == "/tx/"
  {
    if chain == "polygon-amoy" then "https://amoy.polygonscan.com/tx/"
    else if chain == "ethereum-sepolia" then "https://sepolia.etherscan.io/tx/"
    else if chain == "base-sepolia" then "https://sepolia.basescan.org/tx/"
    else "https://polygonscan.com/tx/"
  }

  /** `getExplorerUrl`: the chain's prefix, then the hash; the link always
      ends in `/tx/` and the hash. */
  function ExplorerUrl(chain: string, txHash: string): (u: string)
    ensures |u| == |ExplorerBase(chain)| + |txHash|
    ensures u[..|ExplorerBase(chain)|] == ExplorerBase(chain)
    ensures |u| >= |txHash| + 4 && u[|u| - |txHash| - 4..] == "/tx/" + txHash
  {
    var b := ExplorerBase(chain);
    assert (b + txHash)[|b| - 4..] == b[|b| - 4..] + txHash;
    b + txHash
  }

  /** Two transactions on one chain never share a link. */
  lemma ExplorerUrlInjective(chain: string, t: string, u: string)
    requires ExplorerUrl(chain, t) == ExplorerUrl(chain, u)
    ensures t == u
  {
    var b := ExplorerBase(chain);
    assert t == (b + t)[|b|..];
    assert u == (b + u)[|b|..];
  }

  /** `s.indexOf(c)`: the first position of `c`, or -1. */
  function IndexOf(s: string, c: char): (i: int)
    ensures -1 <= i < |s|
    ensures i == -1 <==> c !in s
    ensures i >= 0 ==> s[i] == c && c !in s[..i]
  {
    if s == [] then -1
    else if s[0] == c then 0
    else
      var j := IndexOf(s[1..], c);
      if j == -1 then -1
      else
        assert s[..j + 1] == [s[0]] + s[1..][..j];
        j + 1
  }

  /** `chain.replace('-', ' ')`: a string pattern, so only the first hyphen
      becomes a space. */
  function ChainLabel(chain: string): (r: string)
    ensures |r| == |chain|
    ensures '-' !in chain ==> r == chain
    ensures '-' in chain ==>
      var i := IndexOf(chain, '-');
      && r[i] == ' ' && '-' !in chain[..i]
      && forall k | 0 <= k < |chain| && k != i :: r[k] == chain[k]
  {
    var i := IndexOf(chain, '-');
    if i == -1 then chain else chain[..i] + " " + chain[i + 1..]
  }

  /** `address.slice(0, 6) + '...' + address.slice(-4)` */
  function Abbreviated(address: string): (r: string)
    ensures |address| >= 10 ==> |r| == 13 && r == address[..6] + "..." + address[|address| - 4..]
    ensures r == address[..if |address| < 6 then |address| else 6] + "..."
                 + address[if |address| < 4 then 0 else |address| - 4..]
  {
    Slice(address, 0, 6) + "..." + SliceFrom(address, -4)
  }

  const MaxShownAttributes := 6

  /** `attributes.slice(0, 6)`: the first six, in order. */
  function ShownAttributes(attributes: seq<Attribute>): (r: seq<Attribute>)
    ensures |r| == if |attributes| < MaxShownAttributes then |attributes| else MaxShownAttributes
    ensures r == attributes[..|r|]
  {
    Slice(attributes, 0, MaxShownAttributes)
  }

  /** The token section: the id and the abbreviated contract. */
  datatype TokenInfo = TokenInfo(tokenId: string, contract: string)

  /** Everything the card decides about one asset. */
  datatype CardView = CardView(
    statusBadge: string,
    chainBadge: string,
    chainLabel: string,
    tokenInfo: Option<TokenInfo>,
    priceRange: Option<Price>,
    attributeCount: Option<nat>,       // the attribute toggle, when the section shows
    expandedAttributes: seq<Attribute>, // what the expanded section lists
    actions: bool,                      // the Transfer/List section
    explorerLink: Option<string>,
    ipfsLink: Option<string>)

  function StatusBadge(status: Option<string>): string {
    if status.Some? then StatusColor(status.value) else GrayBadge
  }

  /** The card for an asset. */
  function View(a: Asset, showActions: bool): (v: CardView)
    // Actions only for a minted asset, and only when the page asks for them.
    ensures v.actions <==> showActions && a.status == Some(Minted)
    // Token info only when both the id and the contract are truthy.
    ensures v.tokenInfo.Some? <==> Truthy(a.token_id) && Truthy(a.contract_address)
    ensures v.tokenInfo.Some? ==>
      v.tokenInfo.value == TokenInfo(a.token_id.value, Abbreviated(a.contract_address.value))
    ensures v.priceRange == a.price_suggestion
    ensures v.attributeCount.Some? <==> a.attributes.Some? && |a.attributes.value| > 0
    ensures v.attributeCount.Some? ==> v.attributeCount.value == |a.attributes.value|
    ensures |v.expandedAttributes| <= MaxShownAttributes
    ensures v.attributeCount.Some? ==> v.expandedAttributes == ShownAttributes(a.attributes.value)
    ensures v.attributeCount.None? ==> v.expandedAttributes == []
    ensures v.explorerLink.Some? <==> Truthy(a.tx_hash)
    ensures Truthy(a.tx_hash) ==> v.explorerLink.value == ExplorerUrl(a.chain, a.tx_hash.value)
    ensures v.ipfsLink.Some? <==> Truthy(a.ipfs_image_uri)
    ensures v.ipfsLink.Some? ==> v.ipfsLink == a.ipfs_image_uri
    ensures v.statusBadge == StatusBadge(a.status) && v.chainBadge == ChainColor(a.chain)
    ensures v.chainLabel == ChainLabel(a.chain)
  {
    var attributesShown := a.attributes.Some? && |a.attributes.value| > 0;
    CardView(
      StatusBadge(a.status),
      ChainColor(a.chain),
      ChainLabel(a.chain),
      if Truthy(a.token_id) && Truthy(a.contract_address)
      then Some(TokenInfo(a.token_id.value, Abbreviated(a.contract_address.value))) else None,
      a.price_suggestion,
      if attributesShown then Some(|a.attributes.value|) else None,
      if attributesShown then ShownAttributes(a.attributes.value) else [],
      showActions && a.status == Some(Minted),
      if Truthy(a.tx_hash) then Some(ExplorerUrl(a.chain, a.tx_hash.value)) else None,
      if Truthy(a.ipfs_image_uri) then a.ipfs_image_uri else None)
  }
}
