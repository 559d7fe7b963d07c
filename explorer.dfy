/**
 * Two helpers of the popup's info page (popup/pages/info.tsx): the
 * chain-to-explorer lookup, and the loop of the transaction crawler that keeps
 * the first transaction hash of each block.
 */
module Explorer {
  import opened Wrappers
  import Text

  /** `chain: string | number`. */
  datatype Chain = Name(name: string) | Id(id: int)

  const MainnetUrl := "https://etherscan.io/"
  const GoerliUrl := "https://goerli.etherscan.io/"
  const SepoliaUrl := "https://sepolia.etherscan.io/"
  const HoleskyUrl := "https://holesky.etherscan.io/"

  /** `getExplorerUrl`: a name is lower-cased before the lookup; `None` is the `null` of the default case. */
  function GetExplorerUrl(chain: Chain): (url: Option<string>)
    ensures chain.Name? ==>
      (url.Some? <==> Text.Lower(chain.name) in {"mainnet", "goerli", "sepolia", "holesky"})
    ensures chain.Id? ==> (url.Some? <==> chain.id in {1, 5, 11155111, 17000})
  {
    match chain
    case Name(name) =>
      var net := Text.Lower(name);
      if net == "mainnet" then Some(MainnetUrl)
      else if net == "goerli" then Some(GoerliUrl)
      else if net == "sepolia" then Some(SepoliaUrl)
      else if net == "holesky" then Some(HoleskyUrl)
      else None
    case Id(id) =>
      if id == 1 then Some(MainnetUrl)
      else if id == 5 then Some(GoerliUrl)
      else if id == 11155111 then Some(SepoliaUrl)
      else if id == 17000 then Some(HoleskyUrl)
      else None
  }

  /** ASCII letter case does not matter: a name and its lower-case form have the same explorer. */
  lemma ExplorerIgnoresCase(name: string)
    ensures GetExplorerUrl(Name(name)) == GetExplorerUrl(Name(Text.Lower(name)))
  {
    Text.LowerIdempotent(name);
  }

  /** A network's explorer under its name is the one under its chain id. */
  lemma NameAndIdAgree(name: string, id: int)
    requires (name, id) in {("mainnet", 1), ("goerli", 5), ("sepolia", 11155111), ("holesky", 17000)}
    ensures GetExplorerUrl(Name(name)) == GetExplorerUrl(Id(id)) != None
  {
    Text.LowerKeepsLowercase(name);
  }

  /** A chain id written as a string is not looked up as a number: `"1"` has no explorer. */
  lemma IdTextHasNoExplorer()
    ensures GetExplorerUrl(Name("1")) == None
  {
    Text.LowerKeepsLowercase("1");
  }

  /** One crawled transaction: its hash and its block, `None` when the block text is not a number (NaN). */
  datatype Row = Row(hash: string, block: Option<int>)

  /** What the loop adds to `blocksSet` for a row it keeps: NaN is recorded as 0. */
  function SeenKey(r: Row): int {
    r.block.GetOr(0)
  }

  /** `blocksSet` once the rows have been walked: the key of every row, since a dropped row's key is already present. */
  function Seen(rows: seq<Row>): set<int> {
    set j | 0 <= j < |rows| :: SeenKey(rows[j])
  }

  /** `!blocksSet.has(blockNumber)`: NaN is never in the set. */
  predicate Keeps(seen: set<int>, r: Row) {
    r.block.None? || r.block.value !in seen
  }

  /** The hashes the loop collects. */
  function KeptHashes(rows: seq<Row>): seq<string>
    decreases |rows|
  {
    if rows == [] then []
    else
      var before := rows[..|rows| - 1];
      var last := rows[|rows| - 1];
      KeptHashes(before) + (if Keeps(Seen(before), last) then [last.hash] else [])
  }

  lemma SeenExtend(rows: seq<Row>, r: Row)
    ensures Seen(rows + [r]) == Seen(rows) + {SeenKey(r)}
  {
    var extended := rows + [r];
    forall k | k in Seen(extended) ensures k in Seen(rows) + {SeenKey(r)} {
      var j :| 0 <= j < |extended| && SeenKey(extended[j]) == k;
      if j < |rows| {
        assert extended[j] == rows[j];
      }
    }
    forall k | k in Seen(rows) ensures k in Seen(extended) {
      var j :| 0 <= j < |rows| && SeenKey(rows[j]) == k;
      assert extended[j] == rows[j];
    }
    assert extended[|rows|] == r;
  }

  /**
   * The loop of `transactionsCrawler`: for each row whose block is not yet in
   * `blocksSet`, keeps the hash and records the block.
   */
  method CollectHashes(rows: seq<Row>) returns (hashes: seq<string>, blocksSet: set<int>)
    ensures hashes == KeptHashes(rows)
    ensures blocksSet == Seen(rows)
  {
    hashes, blocksSet := [], {};
    var i := 0;
    while i < |rows|
      invariant 0 <= i <= |rows|
      invariant hashes == KeptHashes(rows[..i])
      invariant blocksSet == Seen(rows[..i])
    {
      var row := rows[i];
      assert rows[..i + 1] == rows[..i] + [row];
      assert rows[..i + 1][..i] == rows[..i];
      SeenExtend(rows[..i], row);
      if row.block.None? || row.block.value !in blocksSet {
        hashes := hashes + [row.hash];
        blocksSet := blocksSet + {SeenKey(row)};
      }
      i := i + 1;
    }
    assert rows[..i] == rows;
  }

  /** Row `i` is kept: its block is NaN or no earlier row recorded the same number. */
  predicate Kept(rows: seq<Row>, i: int)
    requires 0 <= i < |rows|
  {
    Keeps(Seen(rows[..i]), rows[i])
  }

  /** The indices of the kept rows, in order. */
  function KeptIndices(rows: seq<Row>): seq<nat>
    decreases |rows|
  {
    if rows == [] then []
    else
      var n := |rows| - 1;
      KeptIndices(rows[..n]) + (if Keeps(Seen(rows[..n]), rows[n]) then [n] else [])
  }

  /**
   * The collected hashes are those of the kept rows, in input order: the kept
   * indices increase, are exactly the rows `Kept` admits, and index the hashes.
   */
  lemma {:induction false} KeptHashesAreKeptRows(rows: seq<Row>)
    ensures |KeptHashes(rows)| == |KeptIndices(rows)| <= |rows|
    ensures forall k :: 0 <= k < |KeptIndices(rows)| ==> KeptIndices(rows)[k] < |rows|
    ensures forall k, l :: 0 <= k < l < |KeptIndices(rows)| ==> KeptIndices(rows)[k] < KeptIndices(rows)[l]
    ensures forall k :: 0 <= k < |KeptIndices(rows)| ==> KeptHashes(rows)[k] == rows[KeptIndices(rows)[k]].hash
    ensures forall i :: 0 <= i < |rows| ==> (i in KeptIndices(rows) <==> Kept(rows, i))
    decreases |rows|
  {
    if rows != [] {
      var n := |rows| - 1;
      var before := rows[..n];
      KeptHashesAreKeptRows(before);
      forall i | 0 <= i < n ensures before[..i] == rows[..i] && before[i] == rows[i] {
      }
    }
  }

  /** Among the kept rows with a numeric block, no block appears twice. */
  lemma KeptBlocksDistinct(rows: seq<Row>, i: int, j: int)
    requires 0 <= i < j < |rows|
    requires rows[i].block.Some? && rows[j].block.Some?
    requires Kept(rows, i) && Kept(rows, j)
    ensures rows[i].block.value != rows[j].block.value
  {
    assert rows[..j][i] == rows[i];
    assert SeenKey(rows[i]) in Seen(rows[..j]);
  }

  /** A NaN row is always kept, and it makes every later row of block 0 dropped. */
  lemma NaNRecordedAsZero(rows: seq<Row>, i: int, j: int)
    requires 0 <= i < j < |rows|
    requires rows[i].block.None? && rows[j].block == Some(0)
    ensures Kept(rows, i)
    ensures !Kept(rows, j)
  {
    assert rows[..j][i] == rows[i];
    assert SeenKey(rows[i]) in Seen(rows[..j]);
  }
}
