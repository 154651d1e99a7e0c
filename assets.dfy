/** The `nft_assets` table: the row every pipeline run creates and then
    updates, the partial updates written to it, and the table itself as a
    map from primary key to row. */
module Assets {
  import opened JsValues

  /** One trait of an asset, `{trait_type, value}`. */
  datatype Attribute = Attribute(trait_type: string, value: string)

  /** A suggested price range. Prices are kept as reals: the source's
      floating-point values are not modelled. */
  datatype Price = Price(min: real, mid: real, max: real, currency: string)

  /** The range is ordered. */
  predicate Ordered(p: Price) {
    p.min <= p.mid <= p.max
  }

  /** The descriptive metadata that the metadata function returns, the
      creation form holds and the mint function receives. */
  datatype Metadata = Metadata(
    name: string,
    description: string,
    attributes: Option<seq<Attribute>>,
    price_suggestion: Option<Price>)

  /** The statuses the pipeline writes (the column is free text). */
  const Generating := "generating"
  const Minting := "minting"
  const Minted := "minted"
  const Failed := "failed"

  /** A row of `nft_assets`. Nullable columns are `Option`s; the two
      timestamps are assigned by the database and are not modelled. */
  datatype Asset = Asset(
    id: string,
    owner_id: string,
    owner_address: string,
    prompt: string,
    ai_image_url: Option<string>,
    chain: string,
    name: string,
    description: Option<string>,
    attributes: Option<seq<Attribute>>,
    ipfs_image_uri: Option<string>,
    ipfs_metadata_uri: Option<string>,
    token_id: Option<string>,
    contract_address: Option<string>,
    tx_hash: Option<string>,
    price_suggestion: Option<Price>,
    status: Option<string>)

  /** An update of `nft_assets`: every column is optional, and a column the
      update does not name (`None`, an `undefined` key) keeps its value. */
  datatype AssetPatch = AssetPatch(
    owner_id: Option<string>,
    owner_address: Option<string>,
    prompt: Option<string>,
    ai_image_url: Option<string>,
    chain: Option<string>,
    name: Option<string>,
    description: Option<string>,
    attributes: Option<seq<Attribute>>,
    ipfs_image_uri: Option<string>,
    ipfs_metadata_uri: Option<string>,
    token_id: Option<string>,
    contract_address: Option<string>,
    tx_hash: Option<string>,
    price_suggestion: Option<Price>,
    status: Option<string>)

  /** The update that names no column. */
  const NoChange := AssetPatch(None, None, None, None, None, None, None, None,
                               None, None, None, None, None, None, None)

  /** `{ status: 'failed' }` */
  const FailedPatch := NoChange.(status := Some(Failed))

  /** The value a column takes under an update: the new one if the update
      names it, the old one otherwise. */
  function Column<T>(old_: T, new_: Option<T>): T {
    if new_.Some? then new_.value else old_
  }

  /** The same for a nullable column. */
  function NullableColumn<T>(old_: Option<T>, new_: Option<T>): Option<T> {
    if new_.Some? then new_ else old_
  }

  /** A row after an update: a merge, never a replacement of the row. */
  function Merge(a: Asset, p: AssetPatch): (r: Asset)
    ensures r.id == a.id
    ensures p == NoChange ==> r == a
    ensures p.status.Some? ==> r.status == p.status
    ensures p.status.None? ==> r.status == a.status
  {
    Asset(
      a.id,
      Column(a.owner_id, p.owner_id),
      Column(a.owner_address, p.owner_address),
      Column(a.prompt, p.prompt),
      NullableColumn(a.ai_image_url, p.ai_image_url),
      Column(a.chain, p.chain),
      Column(a.name, p.name),
      NullableColumn(a.description, p.description),
      NullableColumn(a.attributes, p.attributes),
      NullableColumn(a.ipfs_image_uri, p.ipfs_image_uri),
      NullableColumn(a.ipfs_metadata_uri, p.ipfs_metadata_uri),
      NullableColumn(a.token_id, p.token_id),
      NullableColumn(a.contract_address, p.contract_address),
      NullableColumn(a.tx_hash, p.tx_hash),
      NullableColumn(a.price_suggestion, p.price_suggestion),
      NullableColumn(a.status, p.status))
  }

  /** Writing the same update twice is the same as writing it once. */
  lemma MergeIdempotent(a: Asset, p: AssetPatch)
    ensures Merge(Merge(a, p), p) == Merge(a, p)
  {
  }

  /** `update(patch).eq('id', id)` on the table's rows: only the row with that
      key changes, and a key with no row changes nothing. */
  function Patched(rows: map<string, Asset>, id: string, p: AssetPatch): (r: map<string, Asset>)
    ensures r.Keys == rows.Keys
    ensures forall k | k in rows && k != id :: r[k] == rows[k]
    ensures id in rows ==> r[id] == Merge(rows[id], p)
    ensures id !in rows ==> r == rows
  {
    if id in rows then rows[id := Merge(rows[id], p)] else rows
  }

  /** The `nft_assets` table, keyed by its primary key `id`. */
  class AssetTable {
    var rows: map<string, Asset>

    /** Every row is stored under its own id. */
    ghost predicate Valid()
      reads this
    {
      forall id | id in rows :: rows[id].id == id
    }

    constructor ()
      ensures Valid() && rows == map[]
    {
      rows := map[];
    }

    /** `insert(row)`: fails when the database is unreachable (`accepted` is
        false) or the key is taken; otherwise adds the row. */
    method Insert(row: Asset, accepted: bool) returns (ok: bool)
      requires Valid()
      modifies this
      ensures Valid()
      ensures ok <==> accepted && row.id !in old(rows)
      ensures rows == if ok then old(rows)[row.id := row] else old(rows)
    {
      ok := accepted && row.id !in rows;
      if ok {
        rows := rows[row.id := row];
      }
    }

    /** `update(patch).eq('id', id)`: applied when the database accepts it
        (`accepted`), a single keyed partial update. */
    method Update(id: string, p: AssetPatch, accepted: bool)
      requires Valid()
      modifies this
      ensures Valid()
      ensures rows == if accepted then Patched(old(rows), id, p) else old(rows)
    {
      if accepted {
        rows := Patched(rows, id, p);
      }
    }
  }
}
