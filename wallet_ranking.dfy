/**
 * The wallet page's balance ranking: a fixed priority table per blockchain
 * with a sentinel for every other chain, and the pipeline that keeps the
 * ranked, positive balances, adds their USD value and priority, and sorts
 * them by descending priority with ties in input order.
 */
module WalletRanking {

  datatype WalletBalance = WalletBalance(currency: string, amount: real, blockchain: string)

  /** A balance enriched for display (the two-decimal `formatted` string is not modelled). */
  datatype RankedBalance = RankedBalance(currency: string, amount: real, blockchain: string, usdValue: real, priority: int)

  /** The score of a blockchain the table does not list. */
  const Unranked := -99

  const PriorityTable: map<string, int> :=
    map["Osmosis" := 100, "Ethereum" := 50, "Arbitrum" := 30, "Zilliqa" := 20, "Neo" := 20]

  /** `getPriority`: the table's score, or the sentinel for an unlisted chain. */
  function GetPriority(blockchain: string): (p: int)
    ensures p != Unranked <==> blockchain in {"Osmosis", "Ethereum", "Arbitrum", "Zilliqa", "Neo"}
    ensures p in {100, 50, 30, 20, Unranked}
  {
    if blockchain in PriorityTable then PriorityTable[blockchain] else Unranked
  }

  lemma PriorityScores()
    ensures GetPriority("Osmosis") == 100 && GetPriority("Ethereum") == 50
    ensures GetPriority("Arbitrum") == 30 && GetPriority("Zilliqa") == 20 && GetPriority("Neo") == 20
  {
  }

  /** `prices[currency] ?? 0`: a missing price counts as zero. */
  function UsdPrice(prices: map<string, real>, currency: string): real {
    if currency in prices then prices[currency] else 0.0
  }

  // ---------------------------------------------------------------------
  // Filter

  /** The filter's test: a ranked chain and a positive amount. */
  predicate Keep(b: WalletBalance) {
    GetPriority(b.blockchain) > Unranked && b.amount > 0.0
  }

  function Filter(balances: seq<WalletBalance>): (r: seq<WalletBalance>)
    ensures |r| <= |balances|
    ensures forall i :: 0 <= i < |r| ==> Keep(r[i])
  {
    if balances == [] then []
    else (if Keep(balances[0]) then [balances[0]] else []) + Filter(balances[1..])
  }

  /** The filter keeps every copy of a kept balance and no copy of any other. */
  lemma {:induction false} FilterCount(balances: seq<WalletBalance>, b: WalletBalance)
    ensures multiset(Filter(balances))[b] == if Keep(b) then multiset(balances)[b] else 0
  {
    if balances != [] {
      FilterCount(balances[1..], b);
      assert balances == [balances[0]] + balances[1..];
    }
  }

  // ---------------------------------------------------------------------
  // Map

  function Enrich(b: WalletBalance, prices: map<string, real>): RankedBalance {
    RankedBalance(b.currency, b.amount, b.blockchain, UsdPrice(prices, b.currency) * b.amount, GetPriority(b.blockchain))
  }

  /** The balance an enriched entry was made from. */
  function Strip(e: RankedBalance): WalletBalance {
    WalletBalance(e.currency, e.amount, e.blockchain)
  }

  function EnrichAll(balances: seq<WalletBalance>, prices: map<string, real>): (r: seq<RankedBalance>)
    ensures |r| == |balances|
    ensures forall i :: 0 <= i < |r| ==> r[i] == Enrich(balances[i], prices)
  {
    if balances == [] then [] else [Enrich(balances[0], prices)] + EnrichAll(balances[1..], prices)
  }

  function StripAll(s: seq<RankedBalance>): (r: seq<WalletBalance>)
    ensures |r| == |s|
    ensures forall i :: 0 <= i < |r| ==> r[i] == Strip(s[i])
  {
    if s == [] then [] else [Strip(s[0])] + StripAll(s[1..])
  }

  /** Enrichment adds fields and loses none: stripping it gives the balances back. */
  lemma StripEnrichAll(balances: seq<WalletBalance>, prices: map<string, real>)
    ensures StripAll(EnrichAll(balances, prices)) == balances
  {
  }

  // ---------------------------------------------------------------------
  // Sort

  /** Non-increasing priority: no entry outranks an earlier one. */
  predicate Descending(s: seq<RankedBalance>) {
    forall i, j :: 0 <= i < j < |s| ==> s[i].priority >= s[j].priority
  }

  /** The entries of priority `p`, in their order in `s`. */
  function WithPriority(s: seq<RankedBalance>, p: int): (r: seq<RankedBalance>)
    ensures forall i :: 0 <= i < |r| ==> r[i].priority == p
  {
    if s == [] then []
    else (if s[0].priority == p then [s[0]] else []) + WithPriority(s[1..], p)
  }

  /**
   * Places `x` before the first entry of priority at most its own: the step
   * of a stable insertion sort that processes the input from the back.
   */
  function Insert(x: RankedBalance, s: seq<RankedBalance>): (r: seq<RankedBalance>)
    ensures |r| == |s| + 1
    ensures multiset(r) == multiset(s) + multiset{x}
    ensures forall y :: y in r ==> y == x || y in s
  {
    if s == [] || s[0].priority <= x.priority then [x] + s
    else
      assert s == [s[0]] + s[1..];
      [s[0]] + Insert(x, s[1..])
  }

  /** Inserting into a list in descending order keeps it in descending order. */
  lemma {:induction false} InsertDescending(x: RankedBalance, s: seq<RankedBalance>)
    requires Descending(s)
    ensures Descending(Insert(x, s))
  {
    var r := Insert(x, s);
    if s == [] || s[0].priority <= x.priority {
      assert r == [x] + s;
      forall i, j | 0 <= i < j < |r| ensures r[i].priority >= r[j].priority {
        if i == 0 {
          assert r[j] == s[j - 1];
          assert s[0].priority >= s[j - 1].priority;
        } else {
          assert r[i] == s[i - 1] && r[j] == s[j - 1];
        }
      }
    } else {
      var tail := Insert(x, s[1..]);
      InsertDescending(x, s[1..]);
      assert r == [s[0]] + tail;
      forall i, j | 0 <= i < j < |r| ensures r[i].priority >= r[j].priority {
        if i == 0 {
          assert r[j] == tail[j - 1];
          assert tail[j - 1] in tail;
          if tail[j - 1] != x {
            var k :| 0 <= k < |s[1..]| && s[1..][k] == tail[j - 1];
            assert s[k + 1] == tail[j - 1];
          }
        } else {
          assert r[i] == tail[i - 1] && r[j] == tail[j - 1];
        }
      }
    }
  }

  /** `sort((a, b) => b.priority - a.priority)`, which ECMA-262 (2019 and later) requires to be stable. */
  function SortByPriority(s: seq<RankedBalance>): (r: seq<RankedBalance>)
    ensures |r| == |s|
    ensures multiset(r) == multiset(s)
    ensures Descending(r)
  {
    if s == [] then []
    else
      assert s == [s[0]] + s[1..];
      InsertDescending(s[0], SortByPriority(s[1..]));
      Insert(s[0], SortByPriority(s[1..]))
  }

  /** Inserting `x` puts it first among the entries of its priority and moves no other entry past an equal one. */
  lemma {:induction false} InsertStable(x: RankedBalance, s: seq<RankedBalance>, p: int)
    ensures WithPriority(Insert(x, s), p) == (if x.priority == p then [x] else []) + WithPriority(s, p)
  {
    if s == [] || s[0].priority <= x.priority {
      assert ([x] + s)[1..] == s;
    } else {
      InsertStable(x, s[1..], p);
      assert ([s[0]] + Insert(x, s[1..]))[1..] == Insert(x, s[1..]);
    }
  }

  /** The sort is stable: for every priority, its entries keep their input order. */
  lemma {:induction false} SortStable(s: seq<RankedBalance>, p: int)
    ensures WithPriority(SortByPriority(s), p) == WithPriority(s, p)
  {
    if s != [] {
      SortStable(s[1..], p);
      InsertStable(s[0], SortByPriority(s[1..]), p);
    }
  }

  /** Sorting only reorders: the underlying balances are a permutation of the input's. */
  lemma {:induction false} StripInsert(x: RankedBalance, s: seq<RankedBalance>)
    ensures multiset(StripAll(Insert(x, s))) == multiset(StripAll(s)) + multiset{Strip(x)}
  {
    if s == [] || s[0].priority <= x.priority {
      assert StripAll([x] + s) == [Strip(x)] + StripAll(s);
    } else {
      StripInsert(x, s[1..]);
      assert StripAll([s[0]] + Insert(x, s[1..])) == [Strip(s[0])] + StripAll(Insert(x, s[1..]));
      assert StripAll(s) == [Strip(s[0])] + StripAll(s[1..]);
    }
  }

  lemma {:induction false} StripSort(s: seq<RankedBalance>)
    ensures multiset(StripAll(SortByPriority(s))) == multiset(StripAll(s))
  {
    if s != [] {
      StripSort(s[1..]);
      StripInsert(s[0], SortByPriority(s[1..]));
      assert StripAll(s) == [Strip(s[0])] + StripAll(s[1..]);
    }
  }

  // ---------------------------------------------------------------------
  // The pipeline

  /** The body of the `useMemo`: filter, then map, then sort. */
  function PrepareBalances(balances: seq<WalletBalance>, prices: map<string, real>): (r: seq<RankedBalance>)
    ensures |r| <= |balances|
    ensures Descending(r)
  {
    SortByPriority(EnrichAll(Filter(balances), prices))
  }

  /** Every output entry is the enrichment of a balance the filter keeps. */
  lemma PreparedFrom(balances: seq<WalletBalance>, prices: map<string, real>, e: RankedBalance)
    requires e in PrepareBalances(balances, prices)
    ensures exists b :: b in balances && Keep(b) && e == Enrich(b, prices)
  {
    var kept := Filter(balances);
    var enriched := EnrichAll(kept, prices);
    assert e in multiset(SortByPriority(enriched));
    assert e in enriched;
    var k :| 0 <= k < |enriched| && enriched[k] == e;
    var b := kept[k];
    FilterCount(balances, b);
    assert b in multiset(kept);
  }

  /**
   * Every output entry is a kept input balance, enriched: its chain is
   * ranked, its amount positive, its priority the chain's score and its
   * USD value the price (or zero) times the amount.
   */
  lemma PreparedEntries(balances: seq<WalletBalance>, prices: map<string, real>, e: RankedBalance)
    requires e in PrepareBalances(balances, prices)
    ensures Strip(e) in balances && Keep(Strip(e))
    ensures e.priority == GetPriority(e.blockchain) && e.priority in {100, 50, 30, 20}
    ensures e.usdValue == UsdPrice(prices, e.currency) * e.amount
  {
    PreparedFrom(balances, prices, e);
    var b :| b in balances && Keep(b) && e == Enrich(b, prices);
    assert Strip(e) == b;
  }

  /**
   * Completeness and no invention: each balance occurs among the output's
   * balances exactly as often as it occurs in the input if the filter keeps
   * it, and not at all otherwise (so duplicates survive).
   */
  lemma PreparedCount(balances: seq<WalletBalance>, prices: map<string, real>, b: WalletBalance)
    ensures multiset(StripAll(PrepareBalances(balances, prices)))[b] == if Keep(b) then multiset(balances)[b] else 0
  {
    var enriched := EnrichAll(Filter(balances), prices);
    StripSort(enriched);
    StripEnrichAll(Filter(balances), prices);
    FilterCount(balances, b);
  }

  /** The kept balances of priority `p`, in input order. */
  function KeptWithPriority(balances: seq<WalletBalance>, p: int): seq<WalletBalance> {
    if balances == [] then []
    else
      (if Keep(balances[0]) && GetPriority(balances[0].blockchain) == p then [balances[0]] else [])
      + KeptWithPriority(balances[1..], p)
  }

  lemma {:induction false} EnrichedWithPriority(balances: seq<WalletBalance>, prices: map<string, real>, p: int)
    ensures StripAll(WithPriority(EnrichAll(Filter(balances), prices), p)) == KeptWithPriority(balances, p)
  {
    if balances != [] {
      EnrichedWithPriority(balances[1..], prices, p);
      var b := balances[0];
      var rest := EnrichAll(Filter(balances[1..]), prices);
      if Keep(b) {
        assert Filter(balances) == [b] + Filter(balances[1..]);
        assert EnrichAll(Filter(balances), prices) == [Enrich(b, prices)] + rest;
        assert ([Enrich(b, prices)] + rest)[1..] == rest;
        if GetPriority(b.blockchain) == p {
          assert StripAll([Enrich(b, prices)] + WithPriority(rest, p)) == [b] + StripAll(WithPriority(rest, p));
        }
      } else {
        assert Filter(balances) == Filter(balances[1..]);
      }
    }
  }

  /**
   * Stability of the whole pipeline: the output entries of any one priority
   * are the kept input balances of that priority, in input order.
   */
  lemma PreparedStable(balances: seq<WalletBalance>, prices: map<string, real>, p: int)
    ensures StripAll(WithPriority(PrepareBalances(balances, prices), p)) == KeptWithPriority(balances, p)
  {
    SortStable(EnrichAll(Filter(balances), prices), p);
    EnrichedWithPriority(balances, prices, p);
  }

  /** Two kept balances with an unknown chain and a zero amount dropped; Osmosis (100) before Ethereum (50). */
  lemma PrepareExample()
    ensures PrepareBalances(
      [ WalletBalance("ETH", 1.0, "Ethereum"), WalletBalance("OSMO", 2.0, "Osmosis"),
        WalletBalance("XYZ", 5.0, "Unknown"), WalletBalance("ETH", 0.0, "Ethereum") ],
      map["ETH" := 2000.0, "OSMO" := 1.0])
      == [ RankedBalance("OSMO", 2.0, "Osmosis", 2.0, 100), RankedBalance("ETH", 1.0, "Ethereum", 2000.0, 50) ]
  {
    var balances := [ WalletBalance("ETH", 1.0, "Ethereum"), WalletBalance("OSMO", 2.0, "Osmosis"),
                      WalletBalance("XYZ", 5.0, "Unknown"), WalletBalance("ETH", 0.0, "Ethereum") ];
    var prices := map["ETH" := 2000.0, "OSMO" := 1.0];
    assert Filter(balances[3..]) == [];
    assert Filter(balances[2..]) == [];
    assert Filter(balances[1..]) == [balances[1]];
    assert Filter(balances) == [balances[0], balances[1]];
    var eth, osmo := Enrich(balances[0], prices), Enrich(balances[1], prices);
    assert EnrichAll([balances[1]], prices) == [osmo];
    assert EnrichAll(Filter(balances), prices) == [eth, osmo];
    assert SortByPriority([osmo]) == [osmo];
    PriorityScores();
    assert osmo == RankedBalance("OSMO", 2.0, "Osmosis", 2.0, 100);
    assert eth == RankedBalance("ETH", 1.0, "Ethereum", 2000.0, 50);
    assert SortByPriority([eth, osmo]) == Insert(eth, [osmo]);
    assert Insert(eth, [osmo]) == [osmo] + Insert(eth, []);
  }
}
