/** The creation form: the chains it offers, image and metadata generation
    from a prompt, and minting, which inserts a `minting` row and invokes the
    mint function on it. Each invocation runs the modelled handler; the client
    sees an error for every answer that is not a 2xx. */
module CreationForm {
  import opened JsValues
  import opened Assets
  import MintNft
  import AiImage
  import AiMetadata
  import NftCard

  // ---------------------------------------------------------------------
  // The chain selector

  /** An entry of the chain selector (`label` is `name` here). */
  datatype ChainOption = ChainOption(value: string, name: string, currency: string)

  const SupportedChains: seq<ChainOption> := [
    ChainOption("polygon-amoy", "Polygon Amoy Testnet", "MATIC"),
    ChainOption("ethereum-sepolia", "Ethereum Sepolia", "ETH"),
    ChainOption("base-sepolia", "Base Sepolia", "ETH")]

  const DefaultChain := "polygon-amoy"

  /** The selector offers this chain. */
  predicate IsSupportedChain(chain: string) {
    exists i | 0 <= i < |SupportedChains| :: SupportedChains[i].value == chain
  }

  /** Three entries, MATIC for Polygon Amoy and ETH for the other two, and
      the default selection is one of them. */
  lemma SupportedChainsTable()
    ensures |SupportedChains| == 3
    ensures forall i | 0 <= i < |SupportedChains| ::
      SupportedChains[i].currency == if SupportedChains[i].value == "polygon-amoy" then "MATIC" else "ETH"
    ensures IsSupportedChain(DefaultChain)
  {
    assert SupportedChains[0].value == DefaultChain;
  }

  /** Every chain the form offers is a key of the mint function's chain
      table, so the mint function never falls back to its default for a
      request from the form, and the lookup as written and the corrected one
      agree on it. */
  lemma SupportedChainsAreMapped(chain: string)
    requires IsSupportedChain(chain)
    ensures chain in MintNft.ChainMapping
    ensures MintNft.ProviderChain(chain) == MintNft.ChainMapping[chain]
    ensures MintNft.ChainLookupAsWritten(chain) == MintNft.ChainName(MintNft.ProviderChain(chain))
    ensures MintNft.ProviderChain(chain) == MintNft.DefaultProviderChain ==> chain == "polygon-amoy"
  {
    var i :| 0 <= i < |SupportedChains| && SupportedChains[i].value == chain;
    assert i == 0 || i == 1 || i == 2;
  }

  /** Every chain the form offers has a badge colour and an explorer of its
      own on the asset card. */
  lemma SupportedChainsAreKnownToCard(chain: string)
    requires IsSupportedChain(chain)
    ensures chain in NftCard.KnownChains
    ensures NftCard.ChainColor(chain) != NftCard.GrayBadge
    ensures NftCard.ExplorerBase(chain) != MainnetExplorer
  {
    var i :| 0 <= i < |SupportedChains| && SupportedChains[i].value == chain;
    assert i == 0 || i == 1 || i == 2;
  }

  // ---------------------------------------------------------------------
  // The success panel's transaction link

  const MainnetExplorer := "https://polygonscan.com/tx/"

  /** The link the success panel renders, as written: Polygon's main-net
      explorer whatever chain the asset was minted on. */
  function TransactionLinkAsWritten(txHash: string): (u: string)
    ensures |u| == |MainnetExplorer| + |txHash|
    ensures u[..|MainnetExplorer|] == MainnetExplorer && u[|MainnetExplorer|..] == txHash
  {
    MainnetExplorer + txHash
  }

  /** On every chain the form offers, that link points at a different
      explorer from the one the asset card uses for the same transaction. */
  lemma TransactionLinkMissesTestnet(chain: string, txHash: string)
    requires IsSupportedChain(chain)
    ensures TransactionLinkAsWritten(txHash) != NftCard.ExplorerUrl(chain, txHash)
  {
    var i :| 0 <= i < |SupportedChains| && SupportedChains[i].value == chain;
    assert i == 0 || i == 1 || i == 2;
    assert |NftCard.ExplorerBase(chain)| != |MainnetExplorer|;
  }

  /** On a chain the form offers, the card's link for a transaction does
      not start with the main-net explorer. */
  lemma TestnetLinkAvoidsMainnet(chain: string, txHash: string)
    ensures IsSupportedChain(chain) ==> !(MainnetExplorer <= NftCard.ExplorerUrl(chain, txHash))
  {
    if IsSupportedChain(chain) {
      var i :| 0 <= i < |SupportedChains| && SupportedChains[i].value == chain;
      assert i == 0 || i == 1 || i == 2;
      // "https://" is shared; the ninth character already differs.
      assert NftCard.ExplorerUrl(chain, txHash)[8] == NftCard.ExplorerBase(chain)[8] != MainnetExplorer[8];
    }
  }

  /** The link the success panel should render: the explorer of the chain
      the asset was minted on, as on the card. */
  function TransactionLink(minted: MintNft.Payload): (u: Option<string>)
    ensures u.Some? <==> Truthy(minted.txHash)
    ensures u.Some? ==> u.value == NftCard.ExplorerUrl(minted.chain, minted.txHash.value)
    ensures u.Some? && IsSupportedChain(minted.chain) ==> !(MainnetExplorer <= u.value)
  {
    if Truthy(minted.txHash) then
      TestnetLinkAvoidsMainnet(minted.chain, minted.txHash.value);
      Some(NftCard.ExplorerUrl(minted.chain, minted.txHash.value))
    else None
  }

  // ---------------------------------------------------------------------
  // What the form sends

  /** The image function's request for a prompt. */
  function ImageRequest(prompt: string): AiImage.Request {
    AiImage.Request(false, Some(AiImage.ImageBody(Some(prompt))))
  }

  /** The metadata function's request: the prompt and the image location. */
  function MetadataRequest(prompt: string, imageUrl: Option<string>): AiMetadata.Request {
    AiMetadata.Request(false, Some(AiMetadata.MetadataBody(Some(prompt), imageUrl)))
  }

  /** The row the form inserts: the owner, the prompt, the image, the chain,
      the name, description and attributes, and status `minting`; no storage
      or chain-result column. */
  function PendingRow(newId: string, userId: string, owner: string, prompt: string,
                      image: Option<string>, chain: string, m: Metadata): (row: Asset)
    ensures row.id == newId && row.owner_id == userId && row.owner_address == owner
    ensures row.prompt == prompt && row.ai_image_url == image && row.chain == chain
    ensures row.name == m.name && row.description == Some(m.description) && row.attributes == m.attributes
    ensures row.status == Some(Minting)
    ensures row.ipfs_image_uri.None? && row.ipfs_metadata_uri.None?
    ensures row.token_id.None? && row.contract_address.None? && row.tx_hash.None?
    ensures row.price_suggestion.None?
  {
    Asset(newId, userId, owner, prompt, image, chain, m.name, Some(m.description), m.attributes,
          None, None, None, None, None, None, Some(Minting))
  }

  /** The mint function's body: the new row's id, the image, the metadata,
      the chain and the wallet. */
  function MintBodyFor(newId: string, image: Option<string>, m: Metadata,
                       chain: string, wallet: Option<string>): (b: MintNft.MintBody)
    ensures b.nftId == Some(newId) && b.imageUrl == image && b.metadata == Some(m)
    ensures b.chain == Some(chain) && b.toAddress == wallet
  {
    MintNft.MintBody(Some(newId), image, Some(m), Some(chain), wallet)
  }

  /** A request from a form that passed its own guard, on a supported chain,
      for a row with an id, gets past the mint function's validation. */
  lemma FormRequestIsValid(newId: string, image: Option<string>, m: Metadata,
                           chain: string, wallet: Option<string>)
    requires newId != "" && Truthy(image) && Truthy(wallet) && IsSupportedChain(chain)
    ensures MintNft.HasRequiredFields(MintBodyFor(newId, image, m, chain, wallet))
  {
    SupportedChainsAreMapped(chain);
  }

  /** The inserted row after the mint function's run: `minted` exactly when
      the function answered 200, `failed` only when its provider key was
      missing, and `minting` in every other case. */
  ghost predicate RowSettled(rows: map<string, Asset>, id: string, cfg: MintNft.Config, run: MintNft.Run) {
    && id in rows
    && (rows[id].status == Some(Minted) <==> run.response.Success?)
    && (rows[id].status == Some(Failed) ==> !Truthy(cfg.verbwireApiKey))
    && rows[id].status in {Some(Minted), Some(Failed), Some(Minting)}
  }

  /** A row inserted as `minting` and named by the request is settled by the
      run: the mint function's table lemma, read for that one row. */
  lemma SettledAfterRun(rows: map<string, Asset>, id: string, cfg: MintNft.Config,
                        body: MintNft.MintBody, p: MintNft.Providers)
    requires id in rows && rows[id].status == Some(Minting) && body.nftId == Some(id)
    ensures var run := MintNft.MintRun(cfg, MintNft.Request(false, Some(body)), p);
      RowSettled(MintNft.Replay(rows, run.calls), id, cfg, run)
  {
    var req := MintNft.Request(false, Some(body));
    MintNft.StatusAfterRun(rows, id, cfg, req, p);
  }

  /** The functions the form invokes and the rows it inserts, in order. */
  datatype Invocation =
    | InvokeImage(prompt: string)
    | InvokeMetadata(prompt: string, imageUrl: Option<string>)
    | InsertRow(row: Asset)
    | InvokeMint(body: MintNft.MintBody)

  /** A mint attempt from a ready form, from the table, trace and minted
      asset before (`0`) to after (`1`): a refused insert leaves the table
      and the minted asset as they were; an accepted one adds the row, then
      the mint function's run on it replays onto the table, settles the row,
      and its 200 answer, and only that, becomes the minted asset. */
  ghost predicate Attempted(rows0: map<string, Asset>, rows1: map<string, Asset>,
                            invocations0: seq<Invocation>, invocations1: seq<Invocation>,
                            minted0: Option<MintNft.Payload>, minted1: Option<MintNft.Payload>,
                            row: Asset, body: MintNft.MintBody, insertAccepted: bool,
                            cfg: MintNft.Config, p: MintNft.Providers)
  {
    if !(insertAccepted && row.id !in rows0) then
      && rows1 == rows0 && minted1 == minted0
      && invocations1 == invocations0 + [InsertRow(row)]
    else
      var run := MintNft.MintRun(cfg, MintNft.Request(false, Some(body)), p);
      && invocations1 == invocations0 + [InsertRow(row), InvokeMint(body)]
      && rows1 == MintNft.Replay(rows0[row.id := row], run.calls)
      && minted1 == (if run.response.Success? then Some(run.response.payload) else minted0)
      && RowSettled(rows1, row.id, cfg, run)
  }

  /** An accepted insert followed by the mint function's run meets
      `Attempted`. */
  lemma AttemptedAfterRun(rows0: map<string, Asset>, rows1: map<string, Asset>,
                          invocations0: seq<Invocation>, invocationsMid: seq<Invocation>,
                          invocations1: seq<Invocation>,
                          minted0: Option<MintNft.Payload>, minted1: Option<MintNft.Payload>,
                          row: Asset, body: MintNft.MintBody, insertAccepted: bool,
                          cfg: MintNft.Config, p: MintNft.Providers,
                          response: MintNft.Response, calls: seq<MintNft.Call>)
    requires insertAccepted && row.id !in rows0
    requires row.status == Some(Minting) && body.nftId == Some(row.id)
    requires MintNft.Run(response, calls) == MintNft.MintRun(cfg, MintNft.Request(false, Some(body)), p)
    requires rows1 == MintNft.Replay(rows0[row.id := row], calls)
    requires invocationsMid == invocations0 + [InsertRow(row)]
    requires invocations1 == invocationsMid + [InvokeMint(body)]
    requires minted1 == if response.Success? then Some(response.payload) else minted0
    ensures Attempted(rows0, rows1, invocations0, invocations1, minted0, minted1,
                      row, body, insertAccepted, cfg, p)
  {
    SettledAfterRun(rows0[row.id := row], row.id, cfg, body, p);
    assert invocations1 == invocations0 + [InsertRow(row), InvokeMint(body)];
  }

  // ---------------------------------------------------------------------
  // The form

  class Form {
    const userId: string
    const walletAddress: Option<string>
    /** The `nft_assets` table, shared with the mint function. */
    const db: AssetTable
    var prompt: string
    var selectedChain: string
    var isGenerating: bool
    var generatedImage: Option<string>
    var metadata: Option<Metadata>
    var isMinting: bool
    var mintedNFT: Option<MintNft.Payload>
    ghost var invocations: seq<Invocation>

    ghost predicate Valid()
      reads this, db
    {
      db.Valid() && IsSupportedChain(selectedChain)
    }

    constructor (userId: string, walletAddress: Option<string>, db: AssetTable)
      requires db.Valid()
      ensures Valid()
      ensures this.userId == userId && this.walletAddress == walletAddress && this.db == db
      ensures prompt == "" && selectedChain == DefaultChain
      ensures !isGenerating && generatedImage.None? && metadata.None? && !isMinting && mintedNFT.None?
      ensures invocations == []
    {
      this.userId := userId;
      this.walletAddress := walletAddress;
      this.db := db;
      prompt, selectedChain := "", DefaultChain;
      isGenerating, generatedImage, metadata := false, None, None;
      isMinting, mintedNFT := false, None;
      invocations := [];
      SupportedChainsTable();
    }

    /** The prompt box. */
    method SetPrompt(text: string)
      requires Valid()
      modifies this
      ensures Valid()
      ensures prompt == text && selectedChain == old(selectedChain)
      ensures generatedImage == old(generatedImage) && metadata == old(metadata)
      ensures mintedNFT == old(mintedNFT) && invocations == old(invocations)
      ensures isGenerating == old(isGenerating) && isMinting == old(isMinting)
    {
      prompt := text;
    }

    /** The chain selector, which offers only the supported chains. */
    method SelectChain(chain: string)
      requires Valid() && IsSupportedChain(chain)
      modifies this
      ensures Valid()
      ensures selectedChain == chain && prompt == old(prompt)
      ensures generatedImage == old(generatedImage) && metadata == old(metadata)
      ensures mintedNFT == old(mintedNFT) && invocations == old(invocations)
      ensures isGenerating == old(isGenerating) && isMinting == old(isMinting)
    {
      selectedChain := chain;
    }

    /** The name and description fields, shown once metadata is present:
        each edit replaces that one field of the metadata. */
    method EditName(name: string)
      requires Valid() && metadata.Some?
      modifies this
      ensures Valid()
      ensures metadata == Some(old(metadata.value).(name := name))
      ensures prompt == old(prompt) && selectedChain == old(selectedChain)
      ensures generatedImage == old(generatedImage) && mintedNFT == old(mintedNFT)
      ensures invocations == old(invocations)
      ensures isGenerating == old(isGenerating) && isMinting == old(isMinting)
    {
      metadata := Some(metadata.value.(name := name));
    }

    method EditDescription(description: string)
      requires Valid() && metadata.Some?
      modifies this
      ensures Valid()
      ensures metadata == Some(old(metadata.value).(description := description))
      ensures prompt == old(prompt) && selectedChain == old(selectedChain)
      ensures generatedImage == old(generatedImage) && mintedNFT == old(mintedNFT)
      ensures invocations == old(invocations)
      ensures isGenerating == old(isGenerating) && isMinting == old(isMinting)
    {
      metadata := Some(metadata.value.(description := description));
    }

    /** `generateImage`: a blank prompt makes no call. Otherwise the image
        function is invoked; only if it answers 200 is its `imageUrl` kept and
        the metadata function invoked with the prompt and that location, and
        only a 200 from it replaces the metadata. The same OpenAI key serves
        both functions; `thrown` is the image function's engine error message. */
    method GenerateImage(openAiKey: Option<string>, imageAnswer: Reply<AiImage.ImageData>, thrown: string,
                         describe: Reply<Metadata>, appraise: Reply<Price>)
      requires Valid()
      modifies this
      ensures Valid()
      ensures prompt == old(prompt) && selectedChain == old(selectedChain)
      ensures isMinting == old(isMinting) && mintedNFT == old(mintedNFT)
      ensures IsBlank(old(prompt)) ==>
        && invocations == old(invocations) && isGenerating == old(isGenerating)
        && generatedImage == old(generatedImage) && metadata == old(metadata)
      ensures !IsBlank(old(prompt)) ==>
        var image := AiImage.GenerateImage(openAiKey, ImageRequest(prompt), imageAnswer, thrown).response;
        && !isGenerating
        && (!image.Generated? ==>
              && invocations == old(invocations) + [InvokeImage(prompt)]
              && generatedImage == old(generatedImage) && metadata == old(metadata))
        && (image.Generated? ==>
              var described := AiMetadata.Generate(openAiKey, MetadataRequest(prompt, image.imageUrl),
                                                   describe, appraise).response;
              && invocations == old(invocations) + [InvokeImage(prompt), InvokeMetadata(prompt, image.imageUrl)]
              && generatedImage == image.imageUrl
              && metadata == if described.Described? then Some(described.metadata) else old(metadata))
    {
      if IsBlank(prompt) {
        return;
      }
      isGenerating := true;
      invocations := invocations + [InvokeImage(prompt)];
      var image := AiImage.GenerateImage(openAiKey, ImageRequest(prompt), imageAnswer, thrown).response;
      if image.Generated? {
        DescribeImage(openAiKey, image.imageUrl, describe, appraise);
      }
      isGenerating := false;
    }

    /** The second half of `generateImage`: keep the image location, then
        invoke the metadata function with it. */
    method DescribeImage(openAiKey: Option<string>, imageUrl: Option<string>,
                         describe: Reply<Metadata>, appraise: Reply<Price>)
      requires Valid()
      modifies this
      ensures Valid()
      ensures prompt == old(prompt) && selectedChain == old(selectedChain)
      ensures isMinting == old(isMinting) && mintedNFT == old(mintedNFT) && isGenerating == old(isGenerating)
      ensures var described := AiMetadata.Generate(openAiKey, MetadataRequest(prompt, imageUrl),
                                                   describe, appraise).response;
        && invocations == old(invocations) + [InvokeMetadata(prompt, imageUrl)]
        && generatedImage == imageUrl
        && metadata == if described.Described? then Some(described.metadata) else old(metadata)
    {
      generatedImage := imageUrl;
      invocations := invocations + [InvokeMetadata(prompt, imageUrl)];
      var described, _ := AiMetadata.GenerateMetadata(openAiKey, MetadataRequest(prompt, imageUrl),
                                                      describe, appraise);
      if described.Described? {
        metadata := Some(described.metadata);
      }
    }

    /** The row a mint attempt inserts, from the form's state. */
    function PendingRowOf(newId: string): Asset
      requires Ready()
      reads this
    {
      PendingRow(newId, userId, walletAddress.value, prompt, generatedImage, selectedChain, metadata.value)
    }

    /** The mint function's body, from the form's state. */
    function BodyOf(newId: string): MintNft.MintBody
      requires Ready()
      reads this
    {
      MintBodyFor(newId, generatedImage, metadata.value, selectedChain, walletAddress)
    }

    /** The form has what minting needs. */
    predicate Ready()
      reads this
    {
      Truthy(generatedImage) && metadata.Some? && Truthy(walletAddress)
    }

    /** `mintNFT`: refused, with no write, unless image, metadata and wallet
        are present. Otherwise one `minting` row is inserted with a fresh id
        (`newId`, refused by the database when `insertAccepted` is false or
        the id is taken), and only then is the mint function invoked, on that
        id, over the same table. `mintedNFT` is set only from a 200. */
    method Mint(newId: string, insertAccepted: bool, cfg: MintNft.Config, p: MintNft.Providers)
      requires Valid()
      modifies this, db
      ensures Valid()
      ensures prompt == old(prompt) && selectedChain == old(selectedChain)
      ensures generatedImage == old(generatedImage) && metadata == old(metadata)
      ensures isGenerating == old(isGenerating)
      ensures !old(Ready()) ==>
        && db.rows == old(db.rows) && invocations == old(invocations)
        && mintedNFT == old(mintedNFT) && isMinting == old(isMinting)
      ensures old(Ready()) ==>
        && !isMinting
        && Attempted(old(db.rows), db.rows, old(invocations), invocations, old(mintedNFT), mintedNFT,
                     old(PendingRowOf(newId)), old(BodyOf(newId)), insertAccepted, cfg, p)
    {
      if !(Truthy(generatedImage) && metadata.Some? && Truthy(walletAddress)) {
        return;
      }
      isMinting := true;
      Attempt(PendingRowOf(newId), BodyOf(newId), insertAccepted, cfg, p);
      isMinting := false;
    }

    /** The attempt itself, from a ready form: the insert of `row`, and only
        if it succeeded the invocation of the mint function with `body` over
        the same table. */
    method Attempt(row: Asset, body: MintNft.MintBody, insertAccepted: bool,
                   cfg: MintNft.Config, p: MintNft.Providers)
      requires Valid() && row.status == Some(Minting) && body.nftId == Some(row.id)
      modifies this, db
      ensures Valid()
      ensures prompt == old(prompt) && selectedChain == old(selectedChain)
      ensures generatedImage == old(generatedImage) && metadata == old(metadata)
      ensures isGenerating == old(isGenerating) && isMinting == old(isMinting)
      ensures Attempted(old(db.rows), db.rows, old(invocations), invocations, old(mintedNFT), mintedNFT,
                        row, body, insertAccepted, cfg, p)
    {
      invocations := invocations + [InsertRow(row)];
      var inserted := db.Insert(row, insertAccepted);
      if !inserted {
        return;
      }
      var response;
      ghost var calls;
      response, calls := MintNft.Serve(db, cfg, MintNft.Request(false, Some(body)), p);
      ghost var invocations0 := invocations;
      invocations := invocations + [InvokeMint(body)];
      if response.Success? {
        mintedNFT := Some(response.payload);
      }
      AttemptedAfterRun(old(db.rows), db.rows, old(invocations), invocations0, invocations,
                        old(mintedNFT), mintedNFT, row, body, insertAccepted, cfg, p, response, calls);
    }

    /** The success panel's transaction link, from the corrected definition:
        shown once an asset was minted with a truthy hash, on the explorer of
        its chain. */
    function SuccessLink(): (u: Option<string>)
      reads this
      ensures u.Some? <==> mintedNFT.Some? && Truthy(mintedNFT.value.txHash)
      ensures u.Some? ==>
        u.value == NftCard.ExplorerUrl(mintedNFT.value.chain, mintedNFT.value.txHash.value)
      ensures u.Some? && IsSupportedChain(mintedNFT.value.chain) ==> !(MainnetExplorer <= u.value)
    {
      if mintedNFT.Some? then TransactionLink(mintedNFT.value) else None
    }
  }
}
