# AI-NFT-Forage minting pipeline, modelled in Dafny

AI-NFT-Forage turns a text prompt into an NFT. It has three parts:

- a **creation form** in the browser. It asks an edge function for an image, then a second one for metadata and a price suggestion. When the user mints, it inserts an `nft_assets` row with status `minting` and invokes the **mint function**;
- the **mint function**. It validates its request, pins the image and a fixed-shape metadata document to IPFS, mints through a provider, and writes the result back to the row with one keyed partial update. Its catch block tries to mark the row `failed`;
- a **gallery** and an **asset card**, which show, filter, transfer and list the user's assets.

The project models each of these in the form the source takes.

- `js_values.dfy` (`JsValues`): the JavaScript behaviour the code relies on. This covers `undefined`, the truthiness of strings, `a || b`, `trim` and `slice`.
- `assets.dfy` (`Assets`): the `nft_assets` row, its partial update (a column the update does not name keeps its value), and `class AssetTable`. The class is the table as a map from primary key to row, with an in-place `Insert` and `Update`.
- `mint_nft.dfy` (`MintNft`): the mint function.
  - `MintRun` is a reference function. It gives the response and the ordered trace of calls a run makes.
  - `Serve` and `Pipeline` are the handler, step by step, on the table. They are proved to make exactly that run and to leave the table at the replay of that trace.
  - Lemmas about the trace state what a run does to the table and to the row's status.
- `ai_image.dfy` (`AiImage`): the image function, a pure function of its key, request and the model's answer.
- `ai_metadata.dfy` (`AiMetadata`):
  - the metadata function as a reference function `Generate`;
  - the handler `GenerateMetadata`, with its reassigned `metadata` and `priceSuggestion`, proved equal to it.
- `nft_card.dfy` (`NftCard`): the card's colour and explorer lookups, the address abbreviation, the attribute cap, and everything the card decides about one asset.
- `gallery.dfy` (`Gallery`): the status/chain filter and `class GalleryPage`, with its transfer and listing handlers.
- `creation_form.dfy` (`CreationForm`): the supported chains, and `class Form`.
  - The form's `Mint` inserts the row into the same `AssetTable` the mint function's `Serve` then updates.
  - Cross-file lemmas connect the form's chains to the mint function's chain table and to the card.

External services (the image and language models, the IPFS store, the mint provider, the database's accept or refuse) are parameters of the operations. `Reply`, `Outcome` and `bool` inputs say what each answered. Environment variables are a `Config` parameter.

Two points about the mint function's catch block, and one about the form, are worth stating:

- **No `failed` write in most failure paths.** The catch block's comment (supabase/functions/mint-nft/index.ts:180) says it tries to mark the row `failed`. In the code, the catch block recovers the id by reading the request body a second time (supabase/functions/mint-nft/index.ts:181), and the body was already read at :29. So the id is recovered only for errors thrown before :29. Of those, only a missing provider key also passes the store-configuration test at :182. In every other failure the row stays `minting`, and `StatusAfterRun` states this.
- **No `failed` write after a failed final update either.** That failure also throws into the catch block, but the body has been read by then. So it does not write `failed`.
- **The form's insert sets the chain.** The insert (src/components/NFTCreationForm.tsx:98) writes `chain`, and `PendingRow` does too; it writes no storage or chain-result column.

## Model

| member | source | states |
|---|---|---|
| JsValues.Or | supabase/functions/mint-nft/index.ts:146-148 | JavaScript's `or` is the first operand when it is truthy and the second otherwise; the result is truthy exactly when one operand is |
| JsValues.TrimStartDropsLeadingWhitespace | src/pages/Gallery.tsx:147 | trimming the start removes only a leading run of whitespace and stops at the first other character |
| JsValues.TrimEndDropsTrailingWhitespace | src/pages/Gallery.tsx:147 | trimming the end removes only trailing whitespace and stops at the last other character |
| JsValues.BlankIffAllWhitespace | src/components/NFTCreationForm.tsx:34 | `!s.trim()` holds exactly when every character of `s` is whitespace |
| JsValues.OrElse | supabase/functions/generate-ai-image/index.ts:56 | the thrown message is the service's own `error.message` if truthy, else the fixed default, and so never empty |
| JsValues.SliceIndex | src/components/NFTCard.tsx:133 | a `slice` index counts from the end when negative and is clamped to `0..len` |
| JsValues.Slice | src/components/NFTCard.tsx:176 | `slice(start, end)` has length `to - from` (or 0) and its elements are those of the input from `from` on |
| JsValues.SliceFrom | src/components/NFTCard.tsx:133 | `slice(start)` is the suffix from the clamped start |
| Assets.Merge | src/integrations/supabase/types.ts:102-121 | an update keeps the row's id, changes nothing when it names no column, and sets the status exactly when it names it |
| Assets.MergeIdempotent | supabase/functions/mint-nft/index.ts:141-152 | writing the same partial update twice equals writing it once |
| Assets.Patched | supabase/functions/mint-nft/index.ts:141-152 | `update(p).eq('id', id)` keeps the table's keys, changes only the row with that id, by a merge, and changes nothing if there is no such row |
| Assets.AssetTable.Insert | src/components/NFTCreationForm.tsx:91-107 | the insert succeeds exactly when the database accepts it and the id is new, and then adds that one row |
| Assets.AssetTable.Update | supabase/functions/mint-nft/index.ts:185-188 | an accepted keyed update leaves the table at `Patched`; a refused one leaves it unchanged |
| MintNft.Sanitized | supabase/functions/mint-nft/index.ts:57 | the regex replace keeps the length and maps each character outside `[a-zA-Z0-9]` to `_` and every other to itself |
| MintNft.SanitizedIdempotent | supabase/functions/mint-nft/index.ts:57 | sanitising twice equals sanitising once |
| MintNft.SanitizedKeepsAlphanumericName | supabase/functions/mint-nft/index.ts:57 | an all-alphanumeric name is unchanged |
| MintNft.FileName | supabase/functions/mint-nft/index.ts:57 | the file name is the sanitised name then `.webp`, five characters longer than the name, alphanumerics kept and only alphanumerics or `_` before the extension |
| MintNft.Locator | supabase/functions/mint-nft/index.ts:68 | the upload locator is `ipfs_storage.ipfs_url` if truthy, else `ipfs_url` |
| MintNft.Document | supabase/functions/mint-nft/index.ts:73-81 | the metadata document copies name and description, embeds the image locator, has the attributes or `[]`, and three empty strings |
| MintNft.ProviderChain | supabase/functions/mint-nft/index.ts:108-114 | (corrected) each table key maps to its provider name, every other chain to `polygon-amoy`, so the result is one of the three provider names |
| MintNft.ChainLookupAsWritten | supabase/functions/mint-nft/index.ts:114 | (as written) a table key gives its name; a name inherited from `Object.prototype` gives that member, not the default |
| MintNft.InheritedNameEscapesDefault | supabase/functions/mint-nft/index.ts:114 | for `"toString"` the lookup as written yields an inherited member while the corrected one yields the default |
| MintNft.LookupsAgreeOffPrototype | supabase/functions/mint-nft/index.ts:108-114 | off the inherited names the two lookups agree |
| MintNft.SuccessPatch | supabase/functions/mint-nft/index.ts:141-151 | the success update names exactly seven columns: both locators and the price as given, each minted identifier by first-truthy selection, and status `minted` |
| MintNft.SuccessWriteTouchesOnlyMintColumns | supabase/functions/mint-nft/index.ts:141-152 | the success update sets `minted`, writes each of the six data columns by the merge rule (a value it carries replaces the old one, an absent one keeps it), and leaves every other column of the row unchanged |
| MintNft.RereadNftId | supabase/functions/mint-nft/index.ts:181 | once the body has been read, the catch block's second read recovers no id |
| MintNft.Caught | supabase/functions/mint-nft/index.ts:177-203 | the catch block answers 500 with the error, and adds a `failed` write exactly when an id was recovered and the store is configured |
| MintNft.MintRun | supabase/functions/mint-nft/index.ts:14-203 | preflight and missing fields (falsy or empty) make no call; before validation only a missing provider key can write and only `failed`; past validation the run is the pipeline |
| MintNft.PipelineRun | supabase/functions/mint-nft/index.ts:41-175 | the calls are image upload, metadata upload, mint, update, in that order; each step before the last attempted succeeded; a failure stops the run with no `failed` write; success exactly when all four succeed |
| MintNft.PipelineCalls | supabase/functions/mint-nft/index.ts:49-175 | each call carries the sanitised file name, the document embedding the image locator, the mapped chain and the metadata locator, the success update keyed by `nftId`; the payload reports exactly the values that update wrote |
| MintNft.TableAfterRun | supabase/functions/mint-nft/index.ts:141-192 | a failed run leaves the table as it was unless its provider key was missing (then only the `failed` write); a successful run changes only its row, by the success update |
| MintNft.PipelineTable | supabase/functions/mint-nft/index.ts:141-157 | past validation only a successful run changes the table, by its success update |
| MintNft.StatusAfterRun | supabase/functions/mint-nft/index.ts:141-192 | a `minting` row becomes `minted` exactly when the run succeeded for it, `failed` only after a missing provider key, and otherwise stays `minting` |
| MintNft.Recover | supabase/functions/mint-nft/index.ts:177-203 | the catch block on the table makes the `Caught` run and leaves the table at its replay |
| MintNft.Serve | supabase/functions/mint-nft/index.ts:14-39 | the handler makes the run `MintRun` gives and leaves the table at the replay of its calls |
| MintNft.Pipeline | supabase/functions/mint-nft/index.ts:41-175 | the steps past validation make the run `PipelineRun` gives and leave the table at its replay |
| AiImage.ErrorText | supabase/functions/generate-ai-image/index.ts:24-32 | a response carries an `error` exactly when its status is not 200 |
| AiImage.Details | supabase/functions/generate-ai-image/index.ts:74-85 | every 500 carries `details`: the fixed key message, or the message of the error thrown, by the handler or by the engine |
| AiImage.Decorated | supabase/functions/generate-ai-image/index.ts:45 | the upstream prompt is the prompt followed by the fixed style suffix |
| AiImage.DecoratedInjective | supabase/functions/generate-ai-image/index.ts:45 | different prompts are sent as different upstream prompts |
| AiImage.ImageUrl | supabase/functions/generate-ai-image/index.ts:63-65 | a truthy `b64_json` becomes a `data:image/webp;base64,` URL; otherwise the `url` unchanged |
| AiImage.DataUrlPayload | supabase/functions/generate-ai-image/index.ts:63-64 | a recognised data URL is the prefix followed by the payload returned |
| AiImage.InlineImageRoundTrip | supabase/functions/generate-ai-image/index.ts:63-64 | the data URL gives back exactly the base64 the model sent |
| AiImage.GenerateImage | supabase/functions/generate-ai-image/index.ts:11-87 | preflight, missing key, unreadable body and falsy prompt are answered without asking the model; only an ok answer with an image is 200, with `ImageUrl`; a refusal or rejection is a 500 with its message; an unreadable body or an answer without `data[0]` is a 500 with the engine's message |
| AiMetadata.DescribeContent | supabase/functions/generate-ai-metadata/index.ts:66 | the user message is the fixed lead followed by the quoted prompt |
| AiMetadata.FallbackMetadata | supabase/functions/generate-ai-metadata/index.ts:87-95 | the fallback has the fixed name, a description ending in the prompt, exactly the three fixed attributes in order, and no price |
| AiMetadata.FallbackKeepsPrompt | supabase/functions/generate-ai-metadata/index.ts:89 | different prompts give different fallbacks |
| AiMetadata.FallbackPriceOrdered | supabase/functions/generate-ai-metadata/index.ts:128-133 | the fallback price is ordered `min <= mid <= max` in MATIC |
| AiMetadata.Settled | supabase/functions/generate-ai-metadata/index.ts:81-96 | parsed metadata is kept; unparsable content gives the fallback |
| AiMetadata.Generate | supabase/functions/generate-ai-metadata/index.ts:11-167 | a falsy prompt is 400 with no model call; a non-ok metadata answer is fatal with no price call; the price call carries the settled metadata; only a rejected price call is fatal, otherwise the price is the parsed one or the fallback, written over the metadata's own |
| AiMetadata.PriceNeverDecidesOutcome | supabase/functions/generate-ai-metadata/index.ts:135-152 | a failed or unparsable price answer changes neither the outcome nor the name, description and attributes |
| AiMetadata.GenerateMetadata | supabase/functions/generate-ai-metadata/index.ts:17-166 | the handler with its reassigned `metadata` and `priceSuggestion` answers and calls exactly as `Generate` |
| NftCard.StatusColor | src/components/NFTCard.tsx:40-53 | each of the four statuses has its colour and anything else is gray |
| NftCard.StatusColorsDistinct | src/components/NFTCard.tsx:40-53 | a known status's colour is shared by no other status |
| NftCard.ChainColor | src/components/NFTCard.tsx:55-66 | each of the three chains has its colour and anything else is gray |
| NftCard.ChainColorsDistinct | src/components/NFTCard.tsx:55-66 | a known chain's colour is shared by no other chain |
| NftCard.ExplorerBase | src/components/NFTCard.tsx:76-87 | the three test networks have their own explorer and anything else goes to polygonscan.com; every prefix ends in `/tx/` |
| NftCard.ExplorerUrl | src/components/NFTCard.tsx:76-87 | the link is the chain's prefix then the hash, and ends in `/tx/` and the hash |
| NftCard.ExplorerUrlInjective | src/components/NFTCard.tsx:76-87 | two transactions on one chain never share a link |
| NftCard.IndexOf | src/components/NFTCard.tsx:106 | `indexOf` is the first position of the character, or -1 exactly when it is absent |
| NftCard.ChainLabel | src/components/NFTCard.tsx:106 | the chain badge replaces only the first `-` with a space and keeps every other character |
| NftCard.Abbreviated | src/components/NFTCard.tsx:133 | the address shows as its first 6 characters, `...`, its last 4 |
| NftCard.ShownAttributes | src/components/NFTCard.tsx:176 | at most the first six attributes, in order |
| NftCard.View | src/components/NFTCard.tsx:89-258 | actions exactly for a minted asset when asked; token info exactly when id and contract are truthy; the attribute section exactly when there are attributes; explorer and IPFS links exactly when their columns are truthy |
| Gallery.Filtered | src/pages/Gallery.tsx:236-240 | every kept asset passes the status and chain filters |
| Gallery.FilteredCounts | src/pages/Gallery.tsx:236-240 | an asset is kept, as often as it occurs, exactly when it passes the filters |
| Gallery.FilteredIsSubsequence | src/pages/Gallery.tsx:236 | the filter keeps the original order |
| Gallery.FilterIdempotent | src/pages/Gallery.tsx:236 | filtering twice equals filtering once |
| Gallery.FilterAllShowsEverything | src/pages/Gallery.tsx:237-239 | with both filters `all` every asset shows |
| Gallery.GalleryPage.Shown | src/pages/Gallery.tsx:236-240 | the page shows the loaded assets that pass both filters, in loaded order, and all of them while both filters are `all` |
| Gallery.GalleryPage.constructor | src/pages/Gallery.tsx:21-28 | the page starts with closed dialogs, empty forms and both filters `all` |
| Gallery.GalleryPage.HandleTransfer | src/pages/Gallery.tsx:146-190 | a blank destination invokes nothing; otherwise one invocation with the form's address and chain, and a success closes the dialog and resets the form |
| Gallery.GalleryPage.HandleList | src/pages/Gallery.tsx:192-234 | a blank or non-positive price inserts nothing; an accepted insert adds one active listing by this user and wallet and resets the form; listings stay well formed |
| Gallery.AcceptedPriceIsPositive | src/pages/Gallery.tsx:193 | a price that passes the guard and parses is positive |
| CreationForm.SupportedChainsTable | src/components/NFTCreationForm.tsx:17-25 | three chains, MATIC for Polygon Amoy and ETH otherwise, and the default is one of them |
| CreationForm.SupportedChainsAreMapped | src/components/NFTCreationForm.tsx:17-21 | every chain the form offers is a key of the mint function's chain table, so its default is never taken for the form's requests |
| CreationForm.SupportedChainsAreKnownToCard | src/components/NFTCreationForm.tsx:17-21 | every chain the form offers has a card colour and a test-network explorer of its own |
| CreationForm.TransactionLinkAsWritten | src/components/NFTCreationForm.tsx:307 | (as written) the success link is the main-net explorer followed by the hash |
| CreationForm.TransactionLinkMissesTestnet | src/components/NFTCreationForm.tsx:304-307 | on every chain the form offers, that link differs from the card's link for the same transaction |
| CreationForm.TestnetLinkAvoidsMainnet | src/components/NFTCard.tsx:76-87 | on a chain the form offers, the card's link never starts with the main-net explorer |
| CreationForm.TransactionLink | src/components/NFTCreationForm.tsx:304-316 | (corrected) a link exactly when the hash is truthy, the card's explorer for the minted chain, which for a supported chain does not start with the main-net explorer |
| CreationForm.Form.SuccessLink | src/components/NFTCreationForm.tsx:304-316 | (corrected) the panel shows a link exactly when an asset was minted with a truthy hash, and it is the card's link for that asset's chain and hash |
| CreationForm.PendingRow | src/components/NFTCreationForm.tsx:91-103 | the inserted row has the owner, prompt, image, chain, name, description, attributes and status `minting`, and no storage, chain-result or price column |
| CreationForm.MintBodyFor | src/components/NFTCreationForm.tsx:110-118 | the mint body names the new row's id, the image, the metadata, the chain and the wallet |
| CreationForm.FormRequestIsValid | src/components/NFTCreationForm.tsx:110-118 | a body from a ready form on a supported chain has every field the mint function requires |
| CreationForm.SettledAfterRun | src/components/NFTCreationForm.tsx:107-122 | after the mint function's run the inserted row is `minted` exactly on a 200, `failed` only after a missing provider key, else `minting` |
| CreationForm.AttemptedAfterRun | src/components/NFTCreationForm.tsx:88-136 | an accepted insert followed by the mint function's run is a complete attempt: trace, table, settled row and minted asset |
| CreationForm.Form.constructor | src/components/NFTCreationForm.tsx:24-30 | the form starts empty on the default chain |
| CreationForm.Form.SetPrompt | src/components/NFTCreationForm.tsx:164 | the prompt box sets the prompt and nothing else |
| CreationForm.Form.SelectChain | src/components/NFTCreationForm.tsx:172 | the selector sets the chain, one of the supported ones, and nothing else |
| CreationForm.Form.EditName | src/components/NFTCreationForm.tsx:225 | editing the name replaces that one field of the metadata |
| CreationForm.Form.EditDescription | src/components/NFTCreationForm.tsx:234 | editing the description replaces that one field of the metadata |
| CreationForm.Form.GenerateImage | src/components/NFTCreationForm.tsx:33-76 | a blank prompt calls nothing; the metadata function is invoked only after a 200 from the image function, with its `imageUrl`; only a 200 from it replaces the metadata |
| CreationForm.Form.DescribeImage | src/components/NFTCreationForm.tsx:51-60 | the image location is kept, then the metadata function is invoked with it |
| CreationForm.Form.Mint | src/components/NFTCreationForm.tsx:78-137 | without image, metadata and wallet nothing is written or invoked; otherwise one `minting` row is inserted, the mint function is invoked on its id only if the insert succeeded, and `mintedNFT` is set only from a 200 |
| CreationForm.Form.Attempt | src/components/NFTCreationForm.tsx:88-136 | the insert, then the mint function's run over the same table, meet `Attempted` |

## Left out

- The CORS headers, `console` logging and the exact status code of a preflight are not modelled. A preflight is its own response.
- Timestamps (`created_at`, `updated_at`) are not modelled. The database assigns them.
- `fetch`, `Deno.env`, the OpenAI, Verbwire and Supabase services are not modelled. Each call's outcome is a parameter.
  - The database-assigned row id is the parameter `newId`.
  - An invocation's network error counts as a non-2xx answer.
- JSON parsing is not modelled.
  - A body or answer that parses is `Some`, one that does not is `None`.
  - JSON `null` is not told apart from an absent key.
  - Parsed values of another shape than the declared one, such as a non-string `name` on which `.replace` would throw, are not modelled.
  - Non-JSON error bodies, where `.json()` at generate-ai-image :54 or generate-ai-metadata :73 throws, are not modelled.
  - A metadata answer whose `.json()` fails at generate-ai-metadata :78 is not modelled.
- Strings are sequences of code points. UTF-16 code units, which `slice`, `trim` and the regex count, are not modelled.
- Prices are reals, not floating point. `parseFloat` is a parameter of `HandleList` (`None` for NaN).
- The model prompts' system text, model names, token limits and image size are not modelled. They are fixed request constants with no behaviour.
- The `transfer-nft` function is not part of this model, as its source is not available. `HandleTransfer` records the invocation with its outcome as a parameter.
  - The gallery's reload after a transfer, `loadUserNFTs`, is not modelled.
  - The page's profile and auth loading is not modelled.
- `src/components/Navigation.tsx`, `src/pages/Index.tsx` and `src/pages/Marketplace.tsx` are not modelled. They are wallet connection, auth listeners and listing queries only.
- JSX layout, toasts, the card's `isExpanded` toggle and the presence of the `onTransfer`/`onList` callbacks are not modelled. `View` states what the expanded attribute list shows.
- HandleList: the database's column check is not modelled itself. A NaN price passes the guard and is sent as `null` into a column that cannot hold it, so the contract states that such an insert adds no listing.
- MintNft.PipelineCalls: the mint call carries the corrected chain lookup `ProviderChain`, and so do `PipelineRun`, `Pipeline`, `MintRun` and `Serve`. For the twelve names inherited from `Object.prototype` the code as written sends no `chain` key, or `{}` for `__proto__` (see "## Findings"). That request is not modelled. The form never sends such a name (`SupportedChainsAreMapped`).
- CreationForm.Form.SuccessLink: the panel's link uses the corrected `TransactionLink`. The code as written always links to `polygonscan.com` (see "## Findings"), and `TransactionLinkAsWritten` and `TransactionLinkMissesTestnet` model and exhibit it.

## Findings

| source | as written | input that shows it | evidently intended | confidence | as-written member | corrected member |
|---|---|---|---|---|---|---|
| supabase/functions/mint-nft/index.ts:108-114 | the lookup `chainMapping[chain]`, with `or` falling back to `'polygon-amoy'`, on a plain object literal also finds the members it inherits from `Object.prototype`; they are truthy, so the default is not taken; `JSON.stringify` then drops the `chain` key of the mint request (a function value), or sends `{}` for `__proto__`, so the provider is asked with no usable chain | chain `"toString"` | every chain outside the table falls back to `polygon-amoy` | not executed | MintNft.ChainLookupAsWritten | MintNft.ProviderChain |
| src/components/NFTCreationForm.tsx:307 | the success panel links the transaction to `https://polygonscan.com/tx/` whatever chain was minted on | chain `polygon-amoy` (or any chain the form offers), any `txHash` | the explorer of the minted chain, as the asset card does | not executed | CreationForm.TransactionLinkMissesTestnet | CreationForm.TransactionLink |
