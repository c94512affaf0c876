/** The coins a signer has discovered at its own addresses. */
module HotSigner {
  import opened Permutations
  import opened Bitcoin
  import opened Signer
  import ElectrumClient

  /** No locktime, but replaceable: `Sequence::ENABLE_RBF_NO_LOCKTIME`. */
  const ENABLE_RBF_NO_LOCKTIME: u32 := 0xFFFF_FFFD

  datatype StoreError = CoinPathWithoutIndex | NoElectrumClient | Client(error: ElectrumClient.Error)

  /** `Panicked` is a derivation path with a hardened step. */
  datatype Outcome = Added(count: nat) | Failed(error: StoreError) | Panicked

  type Store = map<CoinPath, seq<Coin>>
  type Listing = multiset<(CoinPath, Coin)>

  function CoinOf(path: CoinPath, found: ElectrumClient.Found): Coin {
    Coin(found.0, found.1, ENABLE_RBF_NO_LOCKTIME, path)
  }

  function AtPath(path: CoinPath, found: seq<ElectrumClient.Found>): (r: seq<(CoinPath, Coin)>)
    ensures |r| == |found| && forall i :: 0 <= i < |r| ==> r[i] == (path, CoinOf(path, found[i]))
  {
    Map(f => (path, CoinOf(path, f)), found)
  }

  /** Every coin of a successful search is an output of a transaction of the history: it names that output,
      carries its value and script, and may be replaced (sequence 0xFFFFFFFD). */
  lemma SearchedCoins(
    server: ElectrumClient.Server, s: ElectrumClient.State, path: CoinPath, script: Script, n: nat)
    requires ElectrumClient.Discovered(server, s, script).1.Ok?
    requires n < |ElectrumClient.Discovered(server, s, script).1.value.0|
    ensures var (s', history) := ElectrumClient.Listed(server, s, script);
            && history.Ok? && ElectrumClient.Fetched(server, s', history.value).1.Ok?
            && var txs := ElectrumClient.Fetched(server, s', history.value).1.value;
               var (p, coin) := AtPath(path, ElectrumClient.Discovered(server, s, script).1.value.0)[n];
               && p == path && coin.coinPath == path && coin.sequence == 0xFFFF_FFFD
               && coin.txout.scriptPubkey == script
               && exists i: nat, k: nat :: OutputOf(history.value, txs, i, k, coin)
  {
    var (s', history) := ElectrumClient.Listed(server, s, script);
    var txs := ElectrumClient.Fetched(server, s', history.value).1.value;
    var found := ElectrumClient.Discovered(server, s, script).1.value.0;
    ElectrumClient.DiscoveryExact(history.value, txs, script, found[n]);
    var i: nat, k: nat :| i < |txs| && ElectrumClient.Pays(history.value[i], txs[i].output, script, k, found[n]);
    assert OutputOf(history.value, txs, i, k, CoinOf(path, found[n]));
  }

  /** The coin is output `k` of the `i`-th transaction. */
  ghost predicate OutputOf(txids: seq<Txid>, txs: seq<Transaction>, i: nat, k: nat, coin: Coin) {
    && i < |txids| && i < |txs| && k < |txs[i].output|
    && coin.txout == txs[i].output[k] && coin.outpoint == OutPoint(txids[i], k % U32_LIMIT)
  }

  lemma AtPathStep(path: CoinPath, found: seq<ElectrumClient.Found>, i: nat)
    requires i < |found|
    ensures multiset(AtPath(path, found[..i + 1]))
              == multiset(AtPath(path, found[..i])) + multiset{(path, CoinOf(path, found[i]))}
  {
    assert AtPath(path, found[..i + 1]) == AtPath(path, found[..i]) + [(path, CoinOf(path, found[i]))];
  }

  /** The store holds exactly the listed coins, each as often as it was found. */
  ghost predicate Holds(coins: Store, listing: Listing) {
    forall path, coin :: listing[(path, coin)] == if path in coins then multiset(coins[path])[coin] else 0
  }

  /** Each coin is kept under its own path, and locked to the script derived there. */
  ghost predicate Owned(w: Wallet, coins: Store) {
    forall path :: path in coins ==> forall i :: 0 <= i < |coins[path]| ==>
      coins[path][i].coinPath == path && SpkAt(w, path) == Spk(coins[path][i].txout.scriptPubkey)
  }

  /** The store with one more coin under `path`. */
  function Pushed(coins: Store, path: CoinPath, coin: Coin): Store {
    coins[path := (if path in coins then coins[path] else []) + [coin]]
  }

  lemma PushedHolds(coins: Store, path: CoinPath, coin: Coin, listing: Listing)
    requires Holds(coins, listing)
    ensures Holds(Pushed(coins, path, coin), listing + multiset{(path, coin)})
  {
    var before := if path in coins then coins[path] else [];
    forall p, c
      ensures (listing + multiset{(path, coin)})[(p, c)]
           == if p in Pushed(coins, path, coin) then multiset(Pushed(coins, path, coin)[p])[c] else 0
    {
      assert multiset(before + [coin]) == multiset(before) + multiset{coin};
    }
  }

  lemma PushedOwned(w: Wallet, coins: Store, path: CoinPath, coin: Coin)
    requires Owned(w, coins) && coin.coinPath == path && SpkAt(w, path) == Spk(coin.txout.scriptPubkey)
    ensures Owned(w, Pushed(coins, path, coin))
  {}

  lemma HeldIsOwned(w: Wallet, coins: Store, listing: Listing, path: CoinPath, coin: Coin)
    requires Holds(coins, listing) && Owned(w, coins) && (path, coin) in listing
    ensures coin.coinPath == path && SpkAt(w, path) == Spk(coin.txout.scriptPubkey)
  {
    assert listing[(path, coin)] > 0;
    assert path in coins && coin in multiset(coins[path]);
    assert coin in coins[path];
  }

  /** `out` lists the coins of every path that is not in `missing`. */
  ghost predicate Lists(coins: Store, missing: set<CoinPath>, out: seq<(CoinPath, Coin)>) {
    Holds(coins - missing, multiset(out))
  }

  lemma ListsMore(coins: Store, missing: set<CoinPath>, out: seq<(CoinPath, Coin)>, key: CoinPath,
      more: seq<(CoinPath, Coin)>)
    requires Lists(coins, missing, out) && key in missing && key in coins
    requires |more| == |coins[key]| && forall i :: 0 <= i < |more| ==> more[i] == (key, coins[key][i])
    ensures Lists(coins, missing - {key}, out + more)
  {
    forall path, coin
      ensures multiset(out + more)[(path, coin)]
           == if path in coins - (missing - {key}) then multiset((coins - (missing - {key}))[path])[coin] else 0
    {
      CountAt(key, coins[key], more, path, coin);
      assert multiset(out + more) == multiset(out) + multiset(more);
    }
  }

  lemma {:induction false} CountAt(key: CoinPath, cs: seq<Coin>, more: seq<(CoinPath, Coin)>, path: CoinPath,
      coin: Coin)
    requires |more| == |cs| && forall i :: 0 <= i < |more| ==> more[i] == (key, cs[i])
    ensures multiset(more)[(path, coin)] == if path == key then multiset(cs)[coin] else 0
  {
    if cs != [] {
      CountAt(key, cs[1..], more[1..], path, coin);
      assert cs == [cs[0]] + cs[1..] && more == [more[0]] + more[1..];
      assert multiset(more) == multiset{more[0]} + multiset(more[1..]);
      assert multiset(cs) == multiset{cs[0]} + multiset(cs[1..]);
    }
  }

  lemma ListsAll(coins: Store, out: seq<(CoinPath, Coin)>, listing: Listing)
    requires Lists(coins, {}, out) && Holds(coins, listing)
    ensures multiset(out) == listing
  {
    assert coins - {} == coins;
    forall entry: (CoinPath, Coin)
      ensures multiset(out)[entry] == listing[entry]
    {
      assert entry == (entry.0, entry.1);
    }
  }

  /** What a listed coin still needs to be signed: agreement of the private and the public
      derivation at its path, and a signature that verifies. Its script is never refused. */
  lemma ListedCoinSigns(w: Wallet, coins: Store, path: CoinPath, i: nat, tx: Transaction)
    requires Owned(w, coins) && path in coins && i < |coins[path]| && tx.input == []
    requires path.index.Some? ==>
               w.crypto.publicKey(w.privateAt(path.depth, path.index.value)) == w.publicAt(path.depth, path.index.value)
    ensures var signed := Sign(w, tx, coins[path][i]);
            signed.Signed? || signed == SignFailed(InvalidSignature)
  {
    var coin := coins[path][i];
    assert coin.coinPath == path && SpkAt(w, path) == Spk(coin.txout.scriptPubkey);
  }

  class HotSigner {
    const wallet: Wallet
    const client: ElectrumClient.Client?
    var coins: Store
    /** Everything successful calls have found so far. */
    ghost var found: Listing

    constructor (wallet: Wallet, client: ElectrumClient.Client?)
      ensures this.wallet == wallet && this.client == client
      ensures Valid() && found == multiset{}
    {
      this.wallet, this.client, coins, found := wallet, client, map[], multiset{};
    }

    ghost predicate Valid()
      reads this
    {
      Holds(coins, found) && Owned(wallet, coins)
    }

    /** What the search at `path` comes to in the client's present state. */
    ghost function Search(path: CoinPath): Outcome
      reads this, client
    {
      match SpkAt(wallet, path)
      case NoIndex => Failed(CoinPathWithoutIndex)
      case SpkAbort => Panicked
      case Spk(script) =>
        if client == null then Failed(NoElectrumClient)
        else
          match ElectrumClient.Discovered(client.server, client.Now(), script).1
          case Err(e) => Failed(Client(e))
          case Ok(pair) => Added(|pair.0|)
    }

    ghost function SearchFinds(path: CoinPath): seq<(CoinPath, Coin)>
      requires Search(path).Added?
      reads this, client
    {
      AtPath(path, ElectrumClient.Discovered(client.server, client.Now(), SpkAt(wallet, path).script).1.value.0)
    }

    /** Search one address. A call that fails leaves the store alone; one that succeeds adds all the
        coins of the address, even those the store already has. */
    method GetCoinsAt(path: CoinPath) returns (r: Outcome)
      requires Valid()
      modifies this, client
      ensures Valid() && r == old(Search(path))
      ensures found == old(found) + if r.Added? then multiset(old(SearchFinds(path))) else multiset{}
      ensures !r.Added? ==> coins == old(coins)
      ensures path.index.None? ==> r == Failed(CoinPathWithoutIndex)
      ensures path.index.Some? && (path.depth >= 0x8000_0000 || path.index.value >= 0x8000_0000) ==> r == Panicked
      ensures path.index.Some? && path.depth < 0x8000_0000 && path.index.value < 0x8000_0000 && client == null ==>
                r == Failed(NoElectrumClient)
      ensures r.Added? ==> |found| == |old(found)| + r.count
    {
      var spk := SpkAt(wallet, path);
      match spk {
        case NoIndex => return Failed(CoinPathWithoutIndex);
        case SpkAbort => return Panicked;
        case Spk(script) =>
      }
      if client == null {
        return Failed(NoElectrumClient);
      }
      var got := client.GetCoinsAt(spk.script);
      if got.Err? {
        return Failed(Client(got.error));
      }
      ElectrumClient.DiscoveredPay(client.server, old(client.Now()), spk.script);
      r := Keep(path, spk.script, got.value.0);
    }

    /** Append to the coins of the path, which may be the first ones there. */
    method Push(path: CoinPath, coin: Coin)
      requires Valid() && coin.coinPath == path && SpkAt(wallet, path) == Spk(coin.txout.scriptPubkey)
      modifies this
      ensures Valid() && found == old(found) + multiset{(path, coin)}
    {
      PushedHolds(coins, path, coin, found);
      PushedOwned(wallet, coins, path, coin);
      if path in coins {
        coins := coins[path := coins[path] + [coin]];
      } else {
        assert [] + [coin] == [coin];
        coins := coins[path := [coin]];
      }
      assert coins == Pushed(old(coins), path, coin);
      found := found + multiset{(path, coin)};
    }

    method Keep(path: CoinPath, script: Script, discovered: seq<ElectrumClient.Found>) returns (r: Outcome)
      requires Valid() && SpkAt(wallet, path) == Spk(script)
      requires forall i :: 0 <= i < |discovered| ==> discovered[i].0.scriptPubkey == script
      modifies this
      ensures Valid() && r == Added(|discovered|)
      ensures found == old(found) + multiset(AtPath(path, discovered))
    {
      var count := 0;
      for i := 0 to |discovered|
        invariant Valid() && count == i
        invariant found == old(found) + multiset(AtPath(path, discovered[..i]))
      {
        var coin := CoinOf(path, discovered[i]);
        Push(path, coin);
        AtPathStep(path, discovered, i);
        count := count + 1;
      }
      assert discovered[..|discovered|] == discovered;
      return Added(count);
    }

    /** The listing, whatever order the paths come in, is the multiset union of what was found. */
    method ListCoins() returns (out: seq<(CoinPath, Coin)>)
      requires Valid()
      ensures multiset(out) == found
      ensures forall i :: 0 <= i < |out| ==>
                out[i].1.coinPath == out[i].0 && SpkAt(wallet, out[i].0) == Spk(out[i].1.txout.scriptPubkey)
    {
      out := [];
      var keys := coins.Keys;
      assert Lists(coins, keys, out);
      while keys != {}
        invariant keys <= coins.Keys && Lists(coins, keys, out)
        decreases keys
      {
        var key :| key in keys;
        var more := ListPath(key);
        ListsMore(coins, keys, out, key, more);
        out := out + more;
        keys := keys - {key};
      }
      ListsAll(coins, out, found);
      forall i | 0 <= i < |out|
        ensures out[i].1.coinPath == out[i].0 && SpkAt(wallet, out[i].0) == Spk(out[i].1.txout.scriptPubkey)
      {
        assert out[i] in multiset(out);
        HeldIsOwned(wallet, coins, found, out[i].0, out[i].1);
      }
    }

    method ListPath(path: CoinPath) returns (out: seq<(CoinPath, Coin)>)
      requires path in coins
      ensures |out| == |coins[path]| && forall i :: 0 <= i < |out| ==> out[i] == (path, coins[path][i])
    {
      out := [];
      for i := 0 to |coins[path]|
        invariant |out| == i && forall j :: 0 <= j < i ==> out[j] == (path, coins[path][j])
      {
        out := out + [(path, coins[path][i])];
      }
    }
  }
}
