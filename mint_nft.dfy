/** The `mint-nft` function: validate the request, pin the image, build and
    pin the metadata document, mint, and record the result on the asset row;
    any thrown error ends in the catch block, which tries to mark the row
    `failed`.

    Every call to a provider is an input (`Providers`); the calls the handler
    makes are recorded, in order, as a trace of `Call`s, and the table's new
    state is that trace replayed on the old one. */
module MintNft {
  import opened JsValues
  import opened Assets

  // ---------------------------------------------------------------------
  // Inputs

  /** The three environment values; each is used for its truthiness. */
  datatype Config = Config(
    verbwireApiKey: Option<string>,
    supabaseUrl: Option<string>,
    serviceRoleKey: Option<string>)

  /** The JSON body the handler destructures. */
  datatype MintBody = MintBody(
    nftId: Option<string>,
    imageUrl: Option<string>,
    metadata: Option<Metadata>,
    chain: Option<string>,
    toAddress: Option<string>)

  /** A request: a CORS preflight, or a POST whose body is JSON (`Some`) or
      cannot be parsed (`None`). */
  datatype Request = Request(preflight: bool, body: Option<MintBody>)

  /** What a storage upload answers: `ipfs_storage.ipfs_url` and `ipfs_url`. */
  datatype Stored = Stored(ipfsStorageUrl: Option<string>, ipfsUrl: Option<string>)

  /** What the mint provider answers, under both spellings of each field. */
  datatype MintData = MintData(
    token_id: Option<string>, tokenId: Option<string>,
    contract_address: Option<string>, contractAddress: Option<string>,
    transaction_hash: Option<string>, transactionHash: Option<string>)

  /** The outcome of every external call of one run: the two uploads and the
      mint (`Err` for a non-ok response), and whether the database accepts the
      success update and the failure marking. */
  datatype Providers = Providers(
    imageUpload: Outcome<Stored>,
    metadataUpload: Outcome<Stored>,
    mint: Outcome<MintData>,
    recordWriteAccepted: bool,
    failureWriteAccepted: bool)

  // ---------------------------------------------------------------------
  // Outputs

  /** The metadata document pinned to storage. */
  datatype MetadataDocument = MetadataDocument(
    name: string,
    description: string,
    image: Option<string>,
    attributes: seq<Attribute>,
    external_url: string,
    background_color: string,
    animation_url: string)

  /** The external calls of a run, in the order they are made. */
  datatype Call =
    | StoreFile(filePath: string, fileName: string)
    | StoreMetadata(document: MetadataDocument)
    | QuickMint(recipientAddress: string, metadataUrl: Option<string>,
                name: string, description: string, chain: string)
    | WriteRecord(id: string, patch: AssetPatch, accepted: bool)
    | MarkFailed(id: string, accepted: bool)

  /** Which thrown error reached the catch block. */
  datatype Failure =
    | ProviderKeyMissing     // 'Verbwire API key not configured'
    | StoreConfigMissing     // 'Supabase configuration missing'
    | BodyUnreadable         // the request body is not JSON
    | ImageUploadFailed      // 'Failed to upload image to IPFS'
    | MetadataUploadFailed   // 'Failed to upload metadata to IPFS'
    | MintFailed             // 'Failed to mint NFT on blockchain'
    | RecordUpdateFailed     // 'Failed to update NFT record'

  /** The success body. */
  datatype Payload = Payload(
    nftId: string,
    ipfsImageUri: Option<string>,
    ipfsMetadataUri: Option<string>,
    tokenId: Option<string>,
    contractAddress: Option<string>,
    txHash: Option<string>,
    chain: string)

  datatype Response =
    | Preflight                      // CORS headers, no body
    | MissingFields                  // 400 'Missing required fields'
    | Success(payload: Payload)      // 200
    | MintFailure(details: Failure)  // 500 'Failed to mint NFT'

  function StatusCode(r: Response): nat {
    match r
    case Preflight => 200
    case MissingFields => 400
    case Success(_) => 200
    case MintFailure(_) => 500
  }

  /** What one run answers and which calls it made. */
  datatype Run = Run(response: Response, calls: seq<Call>)

  // ---------------------------------------------------------------------
  // Pure steps

  predicate IsAsciiAlphanumeric(c: char) {
    'a' <= c <= 'z' || 'A' <= c <= 'Z' || '0' <= c <= '9'
  }

  /** `s.replace(/[^a-zA-Z0-9]/g, '_')` */
  function Sanitized(s: string): (r: string)
    ensures |r| == |s|
    ensures forall i | 0 <= i < |s| :: r[i] == if IsAsciiAlphanumeric(s[i]) then s[i] else '_'
  {
    if s == [] then []
    else [if IsAsciiAlphanumeric(s[0]) then s[0] else '_'] + Sanitized(s[1..])
  }

  /** Sanitising a sanitised name changes nothing. */
  lemma {:induction false} SanitizedIdempotent(s: string)
    ensures Sanitized(Sanitized(s)) == Sanitized(s)
  {
    if s != [] {
      SanitizedIdempotent(s[1..]);
      assert Sanitized(s) == [Sanitized(s)[0]] + Sanitized(s[1..]);
    }
  }

  /** A name made only of ASCII letters and digits is kept as it is. */
  lemma SanitizedKeepsAlphanumericName(s: string)
    requires forall i | 0 <= i < |s| :: IsAsciiAlphanumeric(s[i])
    ensures Sanitized(s) == s
  {
  }

  /** The file name of the pinned image: the sanitised name, then `.webp`. */
  function FileName(name: string): (r: string)
    ensures |r| == |name| + 5
    ensures r[..|name|] == Sanitized(name) && r[|name|..] == ".webp"
    ensures forall i | 0 <= i < |name| :: IsAsciiAlphanumeric(r[i]) || r[i] == '_'
    ensures forall i | 0 <= i < |name| && IsAsciiAlphanumeric(name[i]) :: r[i] == name[i]
  {
    Sanitized(name) + ".webp"
  }

  /** The locator an upload answers: `ipfs_storage?.ipfs_url || ipfs_url`. */
  function Locator(s: Stored): (r: Option<string>)
    ensures Truthy(s.ipfsStorageUrl) ==> r == s.ipfsStorageUrl
    ensures !Truthy(s.ipfsStorageUrl) ==> r == s.ipfsUrl
  {
    Or(s.ipfsStorageUrl, s.ipfsUrl)
  }

  /** The metadata document, in the fixed shape downstream marketplaces read. */
  function Document(m: Metadata, image: Option<string>): (d: MetadataDocument)
    ensures d.name == m.name && d.description == m.description && d.image == image
    ensures d.attributes == if m.attributes.Some? then m.attributes.value else []
    ensures d.external_url == "" && d.background_color == "" && d.animation_url == ""
  {
    MetadataDocument(m.name, m.description, image,
                     if m.attributes.Some? then m.attributes.value else [],
                     "", "", "")
  }

  /** The chain names the mint provider is asked for, by the form's chain id. */
  const ChainMapping: map<string, string> :=
    map["polygon-amoy" := "polygon-amoy",
        "ethereum-sepolia" := "sepolia",
        "base-sepolia" := "base-sepolia"]

  const DefaultProviderChain := "polygon-amoy"

  /** `chainMapping[chain] || 'polygon-amoy'`, with the lookup restricted to
      the table's own keys: an unknown chain falls back to the default rather
      than failing, so the answer is always one of the three provider names. */
  function ProviderChain(chain: string): (r: string)
    ensures chain in ChainMapping ==> r == ChainMapping[chain]
    ensures chain !in ChainMapping ==> r == DefaultProviderChain
    ensures r in {"polygon-amoy", "sepolia", "base-sepolia"}
  {
    if chain in ChainMapping && ChainMapping[chain] != "" then ChainMapping[chain]
    else DefaultProviderChain
  }

  /** The names `chainMapping` inherits from `Object.prototype`. */
  const ObjectPrototypeMembers: set<string> :=
    {"constructor", "hasOwnProperty", "isPrototypeOf", "propertyIsEnumerable",
     "toLocaleString", "toString", "valueOf", "__proto__",
     "__defineGetter__", "__defineSetter__", "__lookupGetter__", "__lookupSetter__"}

  /** What `chainMapping[chain] || 'polygon-amoy'` evaluates to on a plain
      object literal: an own key's string, an inherited member (a function or
      `Object.prototype`, both truthy, so the default is not taken), or the
      default. */
  datatype LookedUp = ChainName(name: string) | InheritedMember(member: string)

  function ChainLookupAsWritten(chain: string): (r: LookedUp)
    ensures chain in ChainMapping ==> r == ChainName(ChainMapping[chain])
    ensures chain !in ChainMapping && chain in ObjectPrototypeMembers ==> r.InheritedMember?
  {
    if chain in ChainMapping then ChainName(ChainMapping[chain])
    else if chain in ObjectPrototypeMembers then InheritedMember(chain)
    else ChainName(DefaultProviderChain)
  }

  /** The lookup as written sends no provider chain name for "toString",
      while the intended lookup sends the default. */
  lemma InheritedNameEscapesDefault()
    ensures ChainLookupAsWritten("toString") == InheritedMember("toString")
    ensures ProviderChain("toString") == DefaultProviderChain
  {
    assert "toString" !in ChainMapping;
  }

  /** Apart from inherited member names the two lookups agree. */
  lemma LookupsAgreeOffPrototype(chain: string)
    requires chain !in ObjectPrototypeMembers
    ensures ChainLookupAsWritten(chain) == ChainName(ProviderChain(chain))
  {
  }

  /** The success update: both locators, the minted identifiers (first
      spelling if truthy, else the second), status `minted` and the price. */
  function SuccessPatch(image: Option<string>, metadataUri: Option<string>,
                        d: MintData, price: Option<Price>): (p: AssetPatch)
    ensures p.status == Some(Minted)
    ensures p.ipfs_image_uri == image && p.ipfs_metadata_uri == metadataUri
    ensures p.token_id == Or(d.token_id, d.tokenId)
    ensures p.contract_address == Or(d.contract_address, d.contractAddress)
    ensures p.tx_hash == Or(d.transaction_hash, d.transactionHash)
    ensures p.price_suggestion == price
    // No other column is named.
    ensures p.(ipfs_image_uri := None, ipfs_metadata_uri := None, token_id := None,
               contract_address := None, tx_hash := None, price_suggestion := None,
               status := None) == NoChange
  {
    NoChange.(ipfs_image_uri := image, ipfs_metadata_uri := metadataUri,
              token_id := Or(d.token_id, d.tokenId),
              contract_address := Or(d.contract_address, d.contractAddress),
              tx_hash := Or(d.transaction_hash, d.transactionHash),
              status := Some(Minted),
              price_suggestion := price)
  }

  /** The success update sets the status to `minted`, writes each of the six
      data columns by the merge rule (a value it carries replaces the old one,
      an absent one keeps it), and leaves every other column as it was:
      resetting the seven columns it names gives back the old row. */
  lemma SuccessWriteTouchesOnlyMintColumns(a: Asset, image: Option<string>, metadataUri: Option<string>,
                                           d: MintData, price: Option<Price>)
    ensures var r := Merge(a, SuccessPatch(image, metadataUri, d, price));
      && r.status == Some(Minted)
      && r.ipfs_image_uri == NullableColumn(a.ipfs_image_uri, image)
      && r.ipfs_metadata_uri == NullableColumn(a.ipfs_metadata_uri, metadataUri)
      && r.token_id == NullableColumn(a.token_id, Or(d.token_id, d.tokenId))
      && r.contract_address == NullableColumn(a.contract_address, Or(d.contract_address, d.contractAddress))
      && r.tx_hash == NullableColumn(a.tx_hash, Or(d.transaction_hash, d.transactionHash))
      && r.price_suggestion == NullableColumn(a.price_suggestion, price)
      && (Truthy(d.token_id) || Truthy(d.tokenId) ==> Truthy(r.token_id))
      && r.(ipfs_image_uri := a.ipfs_image_uri, ipfs_metadata_uri := a.ipfs_metadata_uri,
            token_id := a.token_id, contract_address := a.contract_address, tx_hash := a.tx_hash,
            price_suggestion := a.price_suggestion, status := a.status) == a
  {
  }

  /** The catch block reads the request body again. A body can be read only
      once: after the read at the top of the handler the second read rejects
      and `.catch(() => ({}))` makes it `{}`, so no id is recovered. */
  function RereadNftId(req: Request, consumed: bool): (r: Option<string>)
    ensures consumed ==> r == None
  {
    if consumed || req.body.None? then None else req.body.value.nftId
  }

  predicate Configured(cfg: Config) {
    Truthy(cfg.verbwireApiKey) && Truthy(cfg.supabaseUrl) && Truthy(cfg.serviceRoleKey)
  }

  predicate HasRequiredFields(b: MintBody) {
    Truthy(b.nftId) && Truthy(b.imageUrl) && b.metadata.Some? && Truthy(b.chain) && Truthy(b.toAddress)
  }

  /** The request gets past validation into the pipeline proper. */
  predicate Validated(cfg: Config, req: Request) {
    !req.preflight && Configured(cfg) && req.body.Some? && HasRequiredFields(req.body.value)
  }

  /** The only case in which the catch block writes `failed`: the error was
      thrown before the body was read, the store is configured, and the body
      carries an id. */
  predicate FailureMarkReached(cfg: Config, req: Request) {
    && !req.preflight && !Truthy(cfg.verbwireApiKey)
    && Truthy(cfg.supabaseUrl) && Truthy(cfg.serviceRoleKey)
    && req.body.Some? && Truthy(req.body.value.nftId)
  }

  /** The position of each kind of call in the pipeline. */
  function StepOf(c: Call): nat {
    match c
    case StoreFile(_, _) => 0
    case StoreMetadata(_) => 1
    case QuickMint(_, _, _, _, _) => 2
    case WriteRecord(_, _, _) => 3
    case MarkFailed(_, _) => 4
  }

  /** Whether the `k`th pipeline step succeeded. */
  function StepSucceeded(p: Providers, k: nat): bool {
    if k == 0 then p.imageUpload.Ok?
    else if k == 1 then p.metadataUpload.Ok?
    else if k == 2 then p.mint.Ok?
    else p.recordWriteAccepted
  }

  /** How many pipeline calls a run that failed with `f` made. */
  function StepsAttempted(f: Failure): nat {
    match f
    case ProviderKeyMissing => 0
    case StoreConfigMissing => 0
    case BodyUnreadable => 0
    case ImageUploadFailed => 1
    case MetadataUploadFailed => 2
    case MintFailed => 3
    case RecordUpdateFailed => 4
  }

  /** The payload reports exactly what the success update wrote. */
  predicate AgreesWithWrite(pl: Payload, c: Call) {
    && c.WriteRecord? && c.id == pl.nftId && c.accepted
    && c.patch.ipfs_image_uri == pl.ipfsImageUri
    && c.patch.ipfs_metadata_uri == pl.ipfsMetadataUri
    && c.patch.token_id == pl.tokenId
    && c.patch.contract_address == pl.contractAddress
    && c.patch.tx_hash == pl.txHash
    && c.patch.status == Some(Minted)
  }

  /** The catch block: answer 500, and mark the row `failed` only if the
      re-read recovered an id and the store is configured. What the database
      answers to that write is ignored. */
  function Caught(cfg: Config, recovered: Option<string>, p: Providers,
                  f: Failure, attempted: seq<Call>): (r: Run)
    ensures r.response == MintFailure(f)
    ensures Truthy(recovered) && Truthy(cfg.supabaseUrl) && Truthy(cfg.serviceRoleKey)
      ==> r.calls == attempted + [MarkFailed(recovered.value, p.failureWriteAccepted)]
    ensures !(Truthy(recovered) && Truthy(cfg.supabaseUrl) && Truthy(cfg.serviceRoleKey))
      ==> r.calls == attempted
  {
    if Truthy(recovered) && Truthy(cfg.supabaseUrl) && Truthy(cfg.serviceRoleKey)
    then Run(MintFailure(f), attempted + [MarkFailed(recovered.value, p.failureWriteAccepted)])
    else Run(MintFailure(f), attempted)
  }

  // ---------------------------------------------------------------------
  // The handler, as a reference function

  /** One run of the handler. */
  function MintRun(cfg: Config, req: Request, p: Providers): (r: Run)
    // Preflight and validation make no call at all.
    ensures r.response == Preflight <==> req.preflight
    ensures r.response == MissingFields <==>
      !req.preflight && Configured(cfg) && req.body.Some? && !HasRequiredFields(req.body.value)
    ensures r.response.Preflight? || r.response.MissingFields? ==> r.calls == []
    ensures r.response.Success? ==> Validated(cfg, req)
    // Before validation only the catch block's write can happen, and it
    // happens only when the error came before the body was read.
    ensures !Validated(cfg, req) && !FailureMarkReached(cfg, req) ==> r.calls == []
    ensures !FailureMarkReached(cfg, req) ==> forall i | 0 <= i < |r.calls| :: !r.calls[i].MarkFailed?
    ensures FailureMarkReached(cfg, req) ==>
      && r.response == MintFailure(ProviderKeyMissing)
      && r.calls == [MarkFailed(req.body.value.nftId.value, p.failureWriteAccepted)]
    // Past validation the run is the pipeline.
    ensures Validated(cfg, req) ==> r == PipelineRun(cfg, req, p)
  {
    if req.preflight then Run(Preflight, [])
    else if !Truthy(cfg.verbwireApiKey) then
      Caught(cfg, RereadNftId(req, false), p, ProviderKeyMissing, [])
    else if !Truthy(cfg.supabaseUrl) || !Truthy(cfg.serviceRoleKey) then
      Caught(cfg, RereadNftId(req, false), p, StoreConfigMissing, [])
    else if req.body.None? then
      Caught(cfg, RereadNftId(req, true), p, BodyUnreadable, [])
    else if !HasRequiredFields(req.body.value) then Run(MissingFields, [])
    else PipelineRun(cfg, req, p)
  }

  /** The run past validation: pin the image, pin the metadata document, mint,
      record; the first step that fails throws into the catch block, which by
      then cannot recover the id. */
  function PipelineRun(cfg: Config, req: Request, p: Providers): (r: Run)
    requires Validated(cfg, req)
    // Image upload, metadata upload, mint, update, in that order; every step
    // before the last one made succeeded, and the run stops at the first step
    // that fails, with no failure marking.
    ensures 1 <= |r.calls| <= 4
    ensures forall i | 0 <= i < |r.calls| :: StepOf(r.calls[i]) == i
    ensures forall k | 0 <= k < |r.calls| - 1 :: StepSucceeded(p, k)
    ensures r.response.MintFailure? || r.response.Success?
    ensures r.response.MintFailure? ==>
      && |r.calls| == StepsAttempted(r.response.details)
      && !StepSucceeded(p, |r.calls| - 1)
    ensures r.response.Success? <==> forall k | 0 <= k < 4 :: StepSucceeded(p, k)
    ensures r.response.Success? ==> |r.calls| == 4 && r.calls[3].WriteRecord?
  {
    var b := req.body.value;
    var m := b.metadata.value;
    var upload := StoreFile(b.imageUrl.value, FileName(m.name));
    if p.imageUpload.Err? then
      Caught(cfg, RereadNftId(req, true), p, ImageUploadFailed, [upload])
    else
      var imageUri := Locator(p.imageUpload.value);
      var store := StoreMetadata(Document(m, imageUri));
      if p.metadataUpload.Err? then
        Caught(cfg, RereadNftId(req, true), p, MetadataUploadFailed, [upload, store])
      else
        var metadataUri := Locator(p.metadataUpload.value);
        var mint := QuickMint(b.toAddress.value, metadataUri, m.name, m.description,
                              ProviderChain(b.chain.value));
        if p.mint.Err? then
          Caught(cfg, RereadNftId(req, true), p, MintFailed, [upload, store, mint])
        else
          var d := p.mint.value;
          var write := WriteRecord(b.nftId.value,
                                   SuccessPatch(imageUri, metadataUri, d, m.price_suggestion),
                                   p.recordWriteAccepted);
          if !p.recordWriteAccepted then
            Caught(cfg, RereadNftId(req, true), p, RecordUpdateFailed, [upload, store, mint, write])
          else
            Run(Success(Payload(b.nftId.value, imageUri, metadataUri,
                                Or(d.token_id, d.tokenId),
                                Or(d.contract_address, d.contractAddress),
                                Or(d.transaction_hash, d.transactionHash),
                                b.chain.value)),
                [upload, store, mint, write])
  }

  /** What each call of the pipeline carries: the sanitised file name, the
      document embedding the image locator, the mapped chain and the metadata
      locator, and the success update keyed by the request's id; and the
      success payload reports exactly what that update wrote. */
  lemma PipelineCalls(cfg: Config, req: Request, p: Providers)
    requires Validated(cfg, req)
    ensures var r, b := PipelineRun(cfg, req, p), req.body.value;
      var m := b.metadata.value;
      && r.calls[0] == StoreFile(b.imageUrl.value, FileName(m.name))
      && (|r.calls| > 1 ==>
            (p.imageUpload.Ok? &&
             r.calls[1] == StoreMetadata(Document(m, Locator(p.imageUpload.value)))))
      && (|r.calls| > 2 ==>
            (p.metadataUpload.Ok? &&
             r.calls[2] == QuickMint(b.toAddress.value, Locator(p.metadataUpload.value),
                                     m.name, m.description, ProviderChain(b.chain.value))))
      && (|r.calls| > 3 ==>
            (p.mint.Ok? &&
             r.calls[3] == WriteRecord(b.nftId.value,
                                       SuccessPatch(Locator(p.imageUpload.value), Locator(p.metadataUpload.value),
                                                    p.mint.value, m.price_suggestion),
                                       p.recordWriteAccepted)))
    ensures var r := PipelineRun(cfg, req, p);
      r.response.Success? ==>
        && AgreesWithWrite(r.response.payload, r.calls[3])
        && r.response.payload.nftId == req.body.value.nftId.value
        && r.response.payload.chain == req.body.value.chain.value
  {
  }

  // ---------------------------------------------------------------------
  // The table after a run

  /** What one call does to the table: only accepted writes change it. */
  function Effect(rows: map<string, Asset>, c: Call): map<string, Asset> {
    match c
    case WriteRecord(id, patch, accepted) => if accepted then Patched(rows, id, patch) else rows
    case MarkFailed(id, accepted) => if accepted then Patched(rows, id, FailedPatch) else rows
    case _ => rows
  }

  /** The table after the calls, made in order. */
  function Replay(rows: map<string, Asset>, calls: seq<Call>): (r: map<string, Asset>)
    ensures r.Keys == rows.Keys
    decreases |calls|
  {
    if calls == [] then rows
    else Effect(Replay(rows, calls[..|calls| - 1]), calls[|calls| - 1])
  }

  /** Replaying one more call applies its effect to the table so far. */
  lemma ReplaySnoc(rows: map<string, Asset>, calls: seq<Call>, c: Call)
    ensures Replay(rows, calls + [c]) == Effect(Replay(rows, calls), c)
  {
    assert (calls + [c])[..|calls|] == calls;
  }

  /** Calls that write nothing leave the table as it was. */
  lemma {:induction false} ReplayWithoutWrites(rows: map<string, Asset>, calls: seq<Call>)
    requires forall i | 0 <= i < |calls| :: !calls[i].WriteRecord? && !calls[i].MarkFailed?
    ensures Replay(rows, calls) == rows
  {
    if calls != [] {
      ReplayWithoutWrites(rows, calls[..|calls| - 1]);
    }
  }

  /** The table after a run. A run that fails in any way other than a missing
      provider key leaves every row as it was (a row inserted as `minting`
      stays `minting`); a successful run changes only the row it was given,
      by the success update; a missing provider key can only mark that row
      `failed`. */
  lemma TableAfterRun(rows: map<string, Asset>, cfg: Config, req: Request, p: Providers)
    ensures var r := MintRun(cfg, req, p);
      var after := Replay(rows, r.calls);
      && (!r.response.Success? && !FailureMarkReached(cfg, req) ==> after == rows)
      && (FailureMarkReached(cfg, req) ==>
            after == if p.failureWriteAccepted then Patched(rows, req.body.value.nftId.value, FailedPatch) else rows)
      && (r.response.Success? ==> after == Patched(rows, r.response.payload.nftId, r.calls[3].patch))
  {
    var r := MintRun(cfg, req, p);
    if Validated(cfg, req) {
      PipelineTable(rows, cfg, req, p);
    } else if FailureMarkReached(cfg, req) {
      ReplaySnoc(rows, [], r.calls[0]);
      assert [] + [r.calls[0]] == r.calls;
    }
  }

  /** The same for the pipeline: only a successful run writes, and only its
      accepted success update. */
  lemma PipelineTable(rows: map<string, Asset>, cfg: Config, req: Request, p: Providers)
    requires Validated(cfg, req)
    ensures var r := PipelineRun(cfg, req, p);
      var after := Replay(rows, r.calls);
      && (!r.response.Success? ==> after == rows)
      && (r.response.Success? ==> after == Patched(rows, r.response.payload.nftId, r.calls[3].patch))
  {
    var r := PipelineRun(cfg, req, p);
    ReplayOfSteps(rows, r.calls);
    if |r.calls| == 4 {
      PipelineCalls(cfg, req, p);
    }
  }

  /** Calls made in pipeline order change the table only through the last
      of them, the only one that can be an update. */
  lemma ReplayOfSteps(rows: map<string, Asset>, calls: seq<Call>)
    requires 1 <= |calls| <= 4
    requires forall i | 0 <= i < |calls| :: StepOf(calls[i]) == i
    ensures Replay(rows, calls) == Effect(rows, calls[|calls| - 1])
  {
    var n := |calls|;
    var prefix, last := calls[..n - 1], calls[n - 1];
    ReplayWithoutWrites(rows, prefix);
    assert calls == prefix + [last];
    ReplaySnoc(rows, prefix, last);
  }

  /** The status of a row the form inserted as `minting`, after a run: it is
      `minted` exactly when the run succeeded for that row, `failed` only when
      the catch block recovered its id (a missing provider key), and
      `minting` otherwise, including after a failed upload, mint or update. */
  lemma StatusAfterRun(rows: map<string, Asset>, id: string, cfg: Config, req: Request, p: Providers)
    requires id in rows && rows[id].status == Some(Minting)
    ensures var r := MintRun(cfg, req, p);
      var after := Replay(rows, r.calls);
      && id in after
      && after[id].status ==
           if r.response.Success? && r.response.payload.nftId == id then Some(Minted)
           else if FailureMarkReached(cfg, req) && p.failureWriteAccepted && req.body.value.nftId == Some(id)
           then Some(Failed)
           else Some(Minting)
  {
    var r := MintRun(cfg, req, p);
    TableAfterRun(rows, cfg, req, p);
    if r.response.Success? {
      PipelineCalls(cfg, req, p);
      assert r.calls[3].patch.status == Some(Minted);
    }
  }

  // ---------------------------------------------------------------------
  // The handler, step by step on the table

  /** The catch block on the table. */
  method Recover(db: AssetTable, cfg: Config, req: Request, consumed: bool, p: Providers,
                 f: Failure, ghost before: map<string, Asset>, ghost attempted: seq<Call>)
    returns (response: Response, ghost calls: seq<Call>)
    requires db.Valid() && db.rows == Replay(before, attempted)
    modifies db
    ensures db.Valid() && db.rows == Replay(before, calls)
    ensures Run(response, calls) == Caught(cfg, RereadNftId(req, consumed), p, f, attempted)
  {
    calls := attempted;
    var nftId := RereadNftId(req, consumed);
    if Truthy(nftId) && Truthy(cfg.supabaseUrl) && Truthy(cfg.serviceRoleKey) {
      db.Update(nftId.value, FailedPatch, p.failureWriteAccepted);
      ReplaySnoc(before, calls, MarkFailed(nftId.value, p.failureWriteAccepted));
      calls := calls + [MarkFailed(nftId.value, p.failureWriteAccepted)];
    }
    response := MintFailure(f);
  }

  /** The `serve` handler: the same run as `MintRun`, made step by step, with
      the table updated in place. */
  method Serve(db: AssetTable, cfg: Config, req: Request, p: Providers)
    returns (response: Response, ghost calls: seq<Call>)
    requires db.Valid()
    modifies db
    ensures db.Valid()
    ensures Run(response, calls) == MintRun(cfg, req, p)
    ensures db.rows == Replay(old(db.rows), calls)
  {
    ghost var before := db.rows;
    calls := [];
    if req.preflight {
      return Preflight, calls;
    }
    if !Truthy(cfg.verbwireApiKey) {
      response, calls := Recover(db, cfg, req, false, p, ProviderKeyMissing, before, calls);
      return;
    }
    if !Truthy(cfg.supabaseUrl) || !Truthy(cfg.serviceRoleKey) {
      response, calls := Recover(db, cfg, req, false, p, StoreConfigMissing, before, calls);
      return;
    }
    // The body is read here, once.
    if req.body.None? {
      response, calls := Recover(db, cfg, req, true, p, BodyUnreadable, before, calls);
      return;
    }
    if !HasRequiredFields(req.body.value) {
      return MissingFields, calls;
    }
    response, calls := Pipeline(db, cfg, req, p);
  }

  /** The steps past validation, on the table. */
  method Pipeline(db: AssetTable, cfg: Config, req: Request, p: Providers)
    returns (response: Response, ghost calls: seq<Call>)
    requires db.Valid() && Validated(cfg, req)
    modifies db
    ensures db.Valid()
    ensures Run(response, calls) == PipelineRun(cfg, req, p)
    ensures db.rows == Replay(old(db.rows), calls)
  {
    ghost var before := db.rows;
    var body := req.body.value;
    var nftId, metadata := body.nftId.value, body.metadata.value;

    // Step 1: pin the image.
    ghost var upload := StoreFile(body.imageUrl.value, FileName(metadata.name));
    ReplaySnoc(before, [], upload);
    calls := [upload];
    if p.imageUpload.Err? {
      response, calls := Recover(db, cfg, req, true, p, ImageUploadFailed, before, calls);
      return;
    }
    var ipfsImageUri := Locator(p.imageUpload.value);

    // Step 2: build and pin the metadata document.
    var nftMetadata := Document(metadata, ipfsImageUri);
    ghost var store := StoreMetadata(nftMetadata);
    ReplaySnoc(before, calls, store);
    calls := calls + [store];
    if p.metadataUpload.Err? {
      response, calls := Recover(db, cfg, req, true, p, MetadataUploadFailed, before, calls);
      return;
    }
    var ipfsMetadataUri := Locator(p.metadataUpload.value);

    // Step 3: mint.
    var verbwireChain := ProviderChain(body.chain.value);
    ghost var quickMint := QuickMint(body.toAddress.value, ipfsMetadataUri, metadata.name,
                                     metadata.description, verbwireChain);
    ReplaySnoc(before, calls, quickMint);
    calls := calls + [quickMint];
    if p.mint.Err? {
      response, calls := Recover(db, cfg, req, true, p, MintFailed, before, calls);
      return;
    }
    var mintData := p.mint.value;

    // Step 4: record the result.
    var patch := SuccessPatch(ipfsImageUri, ipfsMetadataUri, mintData, metadata.price_suggestion);
    db.Update(nftId, patch, p.recordWriteAccepted);
    ghost var write := WriteRecord(nftId, patch, p.recordWriteAccepted);
    ReplaySnoc(before, calls, write);
    calls := calls + [write];
    if !p.recordWriteAccepted {
      response, calls := Recover(db, cfg, req, true, p, RecordUpdateFailed, before, calls);
      return;
    }
    response := Success(Payload(nftId, ipfsImageUri, ipfsMetadataUri,
                                Or(mintData.token_id, mintData.tokenId),
                                Or(mintData.contract_address, mintData.contractAddress),
                                Or(mintData.transaction_hash, mintData.transactionHash),
                                body.chain.value));
  }

}
