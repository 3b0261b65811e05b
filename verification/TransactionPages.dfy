/** The live activity stream's transaction upsert (hooks/useOffpayWalletActivityStream.ts) and the warm token page
    rebuilt from wallet history (hooks/useOffpayWalletTokenTransactions.ts). */
module TransactionPages {
  import opened Common
  import opened Ordering

  /** `body` stands for the remaining descriptive fields; they travel with the record unchanged. */
  datatype Transaction = Transaction(
    signature: string,
    timestamp: real,
    tokenMint: Option<string>,
    tokenSymbol: Option<string>,
    display: Option<Display>,
    body: string)

  datatype Display = Display(tokenMint: Option<string>, title: string)

  datatype Page = Page(
    address: string,
    network: Network,
    transactions: seq<Transaction>,
    displayTransactions: seq<Display>,
    historyGroups: seq<string>,
    cursor: Option<string>,
    fetchedAt: int)

  datatype History = History(pages: seq<Page>, pageParams: seq<Option<string>>)

  /** `localeCompare(x, y) < 0` on signatures. */
  type Collation = (string, string) -> bool

  /** Newest first; equal timestamps are ordered by signature. */
  function MostRecent(collates: Collation): (Transaction, Transaction) -> bool {
    (l: Transaction, r: Transaction) =>
      l.timestamp > r.timestamp || (l.timestamp == r.timestamp && collates(l.signature, r.signature))
  }

  predicate Has(entries: seq<Transaction>, signature: string) {
    exists i :: 0 <= i < |entries| && entries[i].signature == signature
  }

  predicate Distinct(entries: seq<Transaction>) {
    forall i, j :: 0 <= i < j < |entries| ==> entries[i].signature != entries[j].signature
  }

  function Views(transactions: seq<Transaction>): seq<Display> {
    if transactions == [] then []
    else (if transactions[0].display.Some? then [transactions[0].display.value] else []) + Views(transactions[1..])
  }

  // ----- Live upsert ------------------------------------------------------------------------------------------------

  /** `Map.set` keyed by signature: a known key keeps its place. */
  function Put(entries: seq<Transaction>, t: Transaction): seq<Transaction> {
    if entries == [] then [t]
    else if entries[0].signature == t.signature then [t] + entries[1..]
    else [entries[0]] + Put(entries[1..], t)
  }

  function PutAll(transactions: seq<Transaction>): seq<Transaction> {
    if transactions == [] then []
    else Put(PutAll(transactions[..|transactions| - 1]), transactions[|transactions| - 1])
  }

  function Lookup(entries: seq<Transaction>, signature: string): Option<Transaction> {
    if entries == [] then None
    else if entries[0].signature == signature then Some(entries[0])
    else Lookup(entries[1..], signature)
  }

  /** `{...known, ...incoming}` where an incoming record may lack only its display view. */
  function Merge(known: Option<Transaction>, incoming: Transaction): Transaction {
    if known.Some? then incoming.(display := incoming.display.Or(known.value.display)) else incoming
  }

  function Upserted(transactions: seq<Transaction>, t: Transaction, limit: nat, collates: Collation): seq<Transaction> {
    var entries := PutAll(transactions);
    Take(Sort(Put(entries, Merge(Lookup(entries, t.signature), t)), MostRecent(collates)), limit)
  }

  function FirstPage(address: string, network: Network, current: Option<History>, now: int): Page {
    if current.Some? && current.value.pages != [] then current.value.pages[0]
    else Page(address, network, [], [], [], None, now)
  }

  method UpsertTransactionPage(
      address: string, network: Network, transaction: Transaction, current: Option<History>, limit: nat,
      collates: Collation, now: int)
    returns (next: History)
    ensures next.pages != []
    ensures var page := FirstPage(address, network, current, now);
            && next.pages[0].transactions == Upserted(page.transactions, transaction, limit, collates)
            && next.pages[0] == page.(address := address, network := network, fetchedAt := now,
                                      transactions := next.pages[0].transactions,
                                      displayTransactions := Views(next.pages[0].transactions))
    ensures next.pages[1..] == if current.Some? && current.value.pages != [] then current.value.pages[1..] else []
    ensures next.pageParams == if current.Some? then current.value.pageParams else [None]
  {
    var existingPages := if current.Some? then current.value.pages else [];
    var page := if existingPages != [] then existingPages[0] else Page(address, network, [], [], [], None, now);
    var bySignature: seq<Transaction> := [];
    for i := 0 to |page.transactions|
      invariant bySignature == PutAll(page.transactions[..i])
    {
      bySignature := Put(bySignature, page.transactions[i]);
      assert page.transactions[..i + 1][..i] == page.transactions[..i];
    }
    assert page.transactions[..|page.transactions|] == page.transactions;
    bySignature := Put(bySignature, Merge(Lookup(bySignature, transaction.signature), transaction));
    var transactions := Take(Sort(bySignature, MostRecent(collates)), limit);
    var first := page.(address := address, network := network, transactions := transactions,
                       displayTransactions := Views(transactions), fetchedAt := now);
    next := History([first] + (if existingPages == [] then [] else existingPages[1..]),
                    if current.Some? then current.value.pageParams else [None]);
  }

  // ----- Warm rebuild -----------------------------------------------------------------------------------------------

  const NATIVE_SOL_MINT := "So11111111111111111111111111111111111111112"

  predicate IsNativeSolMint(mint: Option<string>) {
    mint == Some(NATIVE_SOL_MINT) || mint == Some("native-sol") || mint == Some("SOL")
  }

  /** `symbol.trim().toUpperCase() === 'SOL'`; U+017F upper-cases to S. */
  predicate IsSolSymbol(symbol: Option<string>) {
    symbol.Some? &&
    var s := Trim(symbol.value);
    |s| == 3 && s[0] in {'S', 's', '\U{017F}'} && s[1] in {'O', 'o'} && s[2] in {'L', 'l'}
  }

  predicate MatchesMint(t: Transaction, mint: string) {
    var viewMint := if t.display.Some? then t.display.value.tokenMint else None;
    if IsNativeSolMint(Some(mint)) then IsNativeSolMint(t.tokenMint) || IsSolSymbol(t.tokenSymbol) || IsNativeSolMint(viewMint)
    else t.tokenMint == Some(mint) || viewMint == Some(mint)
  }

  /** What is asked of the wallet history: whose, on which network, for which token. */
  datatype Query = Query(address: string, network: Network, mint: string, limit: nat)

  predicate Shown(page: Page, q: Query) {
    page.address == q.address && page.network == q.network
  }

  function Collect(entries: seq<Transaction>, transactions: seq<Transaction>, mint: string): seq<Transaction> {
    if transactions == [] then entries
    else
      var before := Collect(entries, transactions[..|transactions| - 1], mint);
      var t := transactions[|transactions| - 1];
      if Has(before, t.signature) || !MatchesMint(t, mint) then before else before + [t]
  }

  function CollectPages(pages: seq<Page>, q: Query): seq<Transaction> {
    if pages == [] then []
    else
      var before := CollectPages(pages[..|pages| - 1], q);
      var page := pages[|pages| - 1];
      if Shown(page, q) then Collect(before, page.transactions, q.mint) else before
  }

  function NewestFetch(pages: seq<Page>, q: Query): int {
    if pages == [] then 0
    else
      var before := NewestFetch(pages[..|pages| - 1], q);
      var page := pages[|pages| - 1];
      if Shown(page, q) && page.fetchedAt > before then page.fetchedAt else before
  }

  function SourceCursor(pages: seq<Page>, q: Query): Option<string> {
    if pages == [] then None
    else if Shown(pages[|pages| - 1], q) then pages[|pages| - 1].cursor
    else SourceCursor(pages[..|pages| - 1], q)
  }

  function WarmPage(pages: seq<Page>, q: Query, collates: Collation): Option<Page> {
    PageOf(Sort(CollectPages(pages, q), MostRecent(collates)), pages, q)
  }

  /** The page of the sorted matching records. */
  function PageOf(matched: seq<Transaction>, pages: seq<Page>, q: Query): Option<Page> {
    var transactions := Take(matched, q.limit);
    if transactions == [] then None
    else Some(Page(
      q.address, q.network, transactions, Views(transactions), [],
      if |matched| > q.limit then Some(transactions[|transactions| - 1].signature) else SourceCursor(pages, q),
      NewestFetch(pages, q)))
  }

  method BuildWarmTokenTransactionsPage(pages: seq<Page>, q: Query, collates: Collation) returns (warm: Option<Page>)
    ensures warm == WarmPage(pages, q, collates)
  {
    var entries: seq<Transaction> := [];
    var fetchedAt := 0;
    var sourceCursor := None;
    for i := 0 to |pages|
      invariant entries == CollectPages(pages[..i], q)
      invariant fetchedAt == NewestFetch(pages[..i], q)
      invariant sourceCursor == SourceCursor(pages[..i], q)
    {
      var page := pages[i];
      assert pages[..i + 1][..i] == pages[..i];
      if !Shown(page, q) { continue; }
      fetchedAt := if page.fetchedAt > fetchedAt then page.fetchedAt else fetchedAt;
      sourceCursor := page.cursor;
      ghost var start := entries;
      for j := 0 to |page.transactions|
        invariant entries == Collect(start, page.transactions[..j], q.mint)
      {
        var t := page.transactions[j];
        assert page.transactions[..j + 1][..j] == page.transactions[..j];
        if Has(entries, t.signature) { continue; }
        if !MatchesMint(t, q.mint) { continue; }
        entries := entries + [t];
      }
      assert page.transactions[..|page.transactions|] == page.transactions;
    }
    assert pages[..|pages|] == pages;
    var matched := Sort(entries, MostRecent(collates));
    var transactions := Take(matched, q.limit);
    if transactions == [] { return None; }
    var cursor := if |matched| > q.limit then Some(transactions[|transactions| - 1].signature) else sourceCursor;
    warm := Some(Page(q.address, q.network, transactions, Views(transactions), [], cursor, fetchedAt));
  }

  // ----- Incremental upsert agrees with rebuild ---------------------------------------------------------------------

  lemma MostRecentIsStrictWeak(collates: Collation)
    requires StrictTotal(collates)
    ensures StrictWeak(MostRecent(collates))
  {
    var before := MostRecent(collates);
    forall x ensures !before(x, x) {
      assert !collates(x.signature, x.signature);
    }
    forall x, y, z | before(x, y) && before(y, z) ensures before(x, z) {
      assert collates(x.signature, y.signature) && collates(y.signature, z.signature) ==> collates(x.signature, z.signature);
    }
    forall x, y, z | before(x, z) ensures before(x, y) || before(y, z) {
      assert collates(x.signature, z.signature) ==> collates(x.signature, y.signature) || collates(y.signature, z.signature);
    }
  }

  lemma {:induction false} PutFresh(entries: seq<Transaction>, t: Transaction)
    requires !Has(entries, t.signature)
    ensures Put(entries, t) == entries + [t] && Lookup(entries, t.signature) == None
  {
    if entries != [] {
      assert entries[0].signature != t.signature;
      forall i | 0 <= i < |entries| - 1 ensures entries[1..][i].signature != t.signature {
        assert entries[i + 1].signature != t.signature;
      }
      PutFresh(entries[1..], t);
      assert entries + [t] == [entries[0]] + (entries[1..] + [t]);
    }
  }

  lemma {:induction false} PutAllDistinct(transactions: seq<Transaction>)
    requires Distinct(transactions)
    ensures PutAll(transactions) == transactions
  {
    if transactions != [] {
      var init := transactions[..|transactions| - 1];
      PutAllDistinct(init);
      PutFresh(init, transactions[|transactions| - 1]);
      assert transactions == init + [transactions[|transactions| - 1]];
    }
  }

  lemma {:induction false} PutKeepsDistinct(entries: seq<Transaction>, t: Transaction)
    requires Distinct(entries)
    ensures Distinct(Put(entries, t))
    ensures forall signature :: Has(Put(entries, t), signature) <==> signature == t.signature || Has(entries, signature)
  {
    if entries != [] && entries[0].signature != t.signature {
      var tail := entries[1..];
      PutKeepsDistinct(tail, t);
      HasCons(entries[0], tail);
      HasCons(entries[0], Put(tail, t));
      assert entries == [entries[0]] + tail;
      DistinctCons(entries[0], Put(tail, t));
    } else if entries != [] {
      HasCons(entries[0], entries[1..]);
      HasCons(t, entries[1..]);
      assert entries == [entries[0]] + entries[1..];
    } else {
      HasCons(t, []);
      assert [t] + [] == [t];
    }
  }

  lemma HasCons(x: Transaction, s: seq<Transaction>)
    ensures forall signature :: Has([x] + s, signature) <==> signature == x.signature || Has(s, signature)
  {
    forall signature ensures Has([x] + s, signature) <==> signature == x.signature || Has(s, signature) {
      assert ([x] + s)[0] == x;
      if Has(s, signature) {
        var i :| 0 <= i < |s| && s[i].signature == signature;
        assert ([x] + s)[i + 1] == s[i];
      }
    }
  }

  lemma DistinctCons(x: Transaction, s: seq<Transaction>)
    requires Distinct(s) && !Has(s, x.signature)
    ensures Distinct([x] + s)
  {
  }

  lemma {:induction false} PutAllIsDistinct(transactions: seq<Transaction>)
    ensures Distinct(PutAll(transactions))
    ensures forall signature :: Has(PutAll(transactions), signature) <==> Has(transactions, signature)
  {
    if transactions != [] {
      var init, t := transactions[..|transactions| - 1], transactions[|transactions| - 1];
      PutAllIsDistinct(init);
      PutKeepsDistinct(PutAll(init), t);
      assert transactions == init + [t];
    }
  }

  /** A page already in cache order: distinct signatures, newest first. */
  ghost predicate InCacheOrder(transactions: seq<Transaction>, collates: Collation) {
    Distinct(transactions) && Sorted(transactions, MostRecent(collates))
  }

  lemma SortedStaysInCacheOrder(entries: seq<Transaction>, limit: nat, collates: Collation)
    requires StrictTotal(collates) && Distinct(entries)
    ensures var s := Sort(entries, MostRecent(collates));
            InCacheOrder(Take(s, limit), collates) && forall signature :: Has(s, signature) <==> Has(entries, signature)
  {
    MostRecentIsStrictWeak(collates);
    SortIsSortedPermutation(entries, MostRecent(collates));
    var s := Sort(entries, MostRecent(collates));
    SameSignatures(entries, s);
  }

  lemma SameSignatures(s: seq<Transaction>, t: seq<Transaction>)
    requires multiset(s) == multiset(t) && Distinct(s)
    ensures Distinct(t)
    ensures forall signature :: Has(s, signature) <==> Has(t, signature)
  {
    PermutationHasNoRepeats(s, t);
    forall i, j | 0 <= i < j < |t| ensures t[i].signature != t[j].signature {
      assert t[i] in multiset(s) && t[j] in multiset(s);
    }
    forall signature ensures Has(s, signature) <==> Has(t, signature) {
      if Has(s, signature) {
        var i :| 0 <= i < |s| && s[i].signature == signature;
        assert s[i] in multiset(t);
      }
      if Has(t, signature) {
        var i :| 0 <= i < |t| && t[i].signature == signature;
        assert t[i] in multiset(s);
      }
    }
  }

  /** On a page in cache order, upserting a fresh record is one bounded insertion. */
  lemma {:induction false} UpsertFreshIsInsert(page: seq<Transaction>, t: Transaction, limit: nat, collates: Collation)
    requires StrictTotal(collates) && InCacheOrder(page, collates) && !Has(page, t.signature)
    ensures Upserted(page, t, limit, collates) == Take(Insert(t, page, MostRecent(collates)), limit)
  {
    PutAllDistinct(page);
    PutFresh(page, t);
    SortOfSorted(page, MostRecent(collates));
    assert (page + [t])[..|page|] == page;
  }

  ghost predicate Fresh(pages: seq<Page>, q: Query, signature: string) {
    forall i, j :: 0 <= i < |pages| && Shown(pages[i], q) && 0 <= j < |pages[i].transactions|
                   && MatchesMint(pages[i].transactions[j], q.mint)
                   ==> pages[i].transactions[j].signature != signature
  }

  /** The same history with `t` at position `j` of page `i`. */
  function WithTransaction(pages: seq<Page>, i: nat, j: nat, t: Transaction): seq<Page>
    requires i < |pages| && j <= |pages[i].transactions|
  {
    var page := pages[i];
    pages[i := page.(transactions := page.transactions[..j] + [t] + page.transactions[j..])]
  }

  lemma HasParts(p: seq<Transaction>, q: seq<Transaction>, signature: string)
    ensures Has(p + q, signature) <==> Has(p, signature) || Has(q, signature)
  {
    if Has(p, signature) {
      var i :| 0 <= i < |p| && p[i].signature == signature;
      assert (p + q)[i] == p[i];
    }
    if Has(q, signature) {
      var i :| 0 <= i < |q| && q[i].signature == signature;
      assert (p + q)[|p| + i] == q[i];
    }
  }

  /** Collecting more transactions ignores a fresh record collected earlier. */
  lemma {:induction false} CollectAround(
      p: seq<Transaction>, t: Transaction, r: seq<Transaction>, transactions: seq<Transaction>, mint: string)
    returns (r': seq<Transaction>)
    requires forall j :: 0 <= j < |transactions| && MatchesMint(transactions[j], mint) ==>
               transactions[j].signature != t.signature
    requires !Has(r, t.signature)
    ensures Collect(p + r, transactions, mint) == p + r'
    ensures Collect(p + [t] + r, transactions, mint) == p + [t] + r'
    ensures !Has(r', t.signature)
  {
    if transactions == [] {
      r' := r;
    } else {
      var init, x := transactions[..|transactions| - 1], transactions[|transactions| - 1];
      r' := CollectAround(p, t, r, init, mint);
      HasParts(p, r', x.signature);
      HasParts(p + [t], r', x.signature);
      HasParts(p, [t], x.signature);
      if MatchesMint(x, mint) && !Has(p + r', x.signature) {
        HasParts(r', [x], t.signature);
        assert p + r' + [x] == p + (r' + [x]);
        assert p + [t] + r' + [x] == p + [t] + (r' + [x]);
        r' := r' + [x];
      }
    }
  }

  lemma {:induction false} CollectSplit(entries: seq<Transaction>, a: seq<Transaction>, b: seq<Transaction>, mint: string)
    ensures Collect(entries, a + b, mint) == Collect(Collect(entries, a, mint), b, mint)
  {
    if b == [] {
      assert a + b == a;
    } else {
      CollectSplit(entries, a, b[..|b| - 1], mint);
      assert (a + b)[..|a + b| - 1] == a + b[..|b| - 1];
    }
  }

  lemma {:induction false} CollectedAreMatching(entries: seq<Transaction>, transactions: seq<Transaction>, mint: string)
    requires Distinct(entries)
    ensures Distinct(Collect(entries, transactions, mint))
    ensures forall signature :: Has(Collect(entries, transactions, mint), signature) ==>
              Has(entries, signature) ||
              exists j :: 0 <= j < |transactions| && MatchesMint(transactions[j], mint) && transactions[j].signature == signature
  {
    if transactions != [] {
      var init, x := transactions[..|transactions| - 1], transactions[|transactions| - 1];
      CollectedAreMatching(entries, init, mint);
      forall signature | Has(Collect(entries, transactions, mint), signature) && !Has(entries, signature)
        ensures exists j :: 0 <= j < |transactions| && MatchesMint(transactions[j], mint)
                            && transactions[j].signature == signature
      {
        if Has(Collect(entries, init, mint), signature) {
          var j :| 0 <= j < |init| && MatchesMint(init[j], mint) && init[j].signature == signature;
          assert transactions[j] == init[j];
        } else {
          HasParts(Collect(entries, init, mint), [x], signature);
          assert transactions[|transactions| - 1].signature == signature;
        }
      }
    }
  }

  lemma {:induction false} CollectPagesFresh(pages: seq<Page>, q: Query, signature: string)
    requires Fresh(pages, q, signature)
    ensures Distinct(CollectPages(pages, q)) && !Has(CollectPages(pages, q), signature)
  {
    if pages != [] {
      var init, page := pages[..|pages| - 1], pages[|pages| - 1];
      CollectPagesFresh(init, q, signature);
      if Shown(page, q) {
        CollectedAreMatching(CollectPages(init, q), page.transactions, q.mint);
      }
    }
  }

  /** Adding a fresh matching record anywhere in the history adds exactly that record to what is collected. */
  lemma {:induction false} CollectPagesAround(pages: seq<Page>, q: Query, i: nat, j: nat, t: Transaction)
    returns (p: seq<Transaction>, r: seq<Transaction>)
    requires i < |pages| && Shown(pages[i], q) && j <= |pages[i].transactions|
    requires MatchesMint(t, q.mint) && Fresh(pages, q, t.signature)
    ensures CollectPages(pages, q) == p + r
    ensures CollectPages(WithTransaction(pages, i, j, t), q) == p + [t] + r
    ensures !Has(r, t.signature)
  {
    var init, page := pages[..|pages| - 1], pages[|pages| - 1];
    var pages' := WithTransaction(pages, i, j, t);
    if i < |init| {
      p, r := CollectPagesAround(init, q, i, j, t);
      assert pages'[..|pages'| - 1] == WithTransaction(init, i, j, t);
      if Shown(page, q) {
        r := CollectAround(p, t, r, page.transactions, q.mint);
      }
    } else {
      assert pages'[..|pages'| - 1] == init;
      CollectPagesFresh(init, q, t.signature);
      p, r := CollectPageAround(CollectPages(init, q), page.transactions, j, t, q.mint);
    }
  }

  /** The same on the page that holds the record. */
  lemma CollectPageAround(
      before: seq<Transaction>, transactions: seq<Transaction>, j: nat, t: Transaction, mint: string)
    returns (p: seq<Transaction>, r: seq<Transaction>)
    requires j <= |transactions| && MatchesMint(t, mint) && Distinct(before) && !Has(before, t.signature)
    requires forall k :: 0 <= k < |transactions| && MatchesMint(transactions[k], mint) ==>
               transactions[k].signature != t.signature
    ensures Collect(before, transactions, mint) == p + r
    ensures Collect(before, transactions[..j] + [t] + transactions[j..], mint) == p + [t] + r
    ensures !Has(r, t.signature)
  {
    var a, b := transactions[..j], transactions[j..];
    assert transactions == a + b;
    p := Collect(before, a, mint);
    CollectedAreMatching(before, a, mint);
    CollectSplit(before, a, b, mint);
    CollectSplit(before, a + [t], b, mint);
    assert (a + [t])[..|a|] == a;
    assert !Has(p, t.signature);
    assert p + [] == p && p + [t] + [] == p + [t];
    r := CollectAround(p, t, [], b, mint);
  }

  /** What the client shows for a token: the warm page, if there is one. */
  function Cached(warm: Option<Page>): Option<History> {
    if warm.Some? then Some(History([warm.value], [None])) else None
  }

  /** Incremental agrees with rebuild: upserting a fresh matching transaction into the warm page gives the transaction
      list of the page rebuilt from a history that holds the transaction anywhere. */
  lemma UpsertAgreesWithRebuild(
      pages: seq<Page>, q: Query, i: nat, j: nat, t: Transaction, collates: Collation, now: int)
    requires StrictTotal(collates) && q.limit >= 1
    requires i < |pages| && Shown(pages[i], q) && j <= |pages[i].transactions|
    requires MatchesMint(t, q.mint) && Fresh(pages, q, t.signature)
    ensures var page := FirstPage(q.address, q.network, Cached(WarmPage(pages, q, collates)), now);
            var rebuilt := WarmPage(WithTransaction(pages, i, j, t), q, collates);
            rebuilt.Some? && rebuilt.value.transactions == Upserted(page.transactions, t, q.limit, collates)
  {
    var before := MostRecent(collates);
    MostRecentIsStrictWeak(collates);
    var p, r := CollectPagesAround(pages, q, i, j, t);
    CollectPagesFresh(pages, q, t.signature);
    SortInsertAnywhere(p, t, r, before);
    var matched := Sort(p + r, before);
    TakeInsert(t, matched, q.limit, before);
    SortedStaysInCacheOrder(p + r, q.limit, collates);
    InsertContents(t, matched, before);
    UpsertFreshIsInsert(Take(matched, q.limit), t, q.limit, collates);
  }

  lemma {:induction false} SameSource(pages: seq<Page>, q: Query, i: nat, j: nat, t: Transaction)
    requires i < |pages| && j <= |pages[i].transactions|
    ensures SourceCursor(WithTransaction(pages, i, j, t), q) == SourceCursor(pages, q)
  {
    var pages' := WithTransaction(pages, i, j, t);
    var init := pages[..|pages| - 1];
    if i < |init| {
      assert pages'[..|pages'| - 1] == WithTransaction(init, i, j, t);
      SameSource(init, q, i, j, t);
    } else {
      assert pages'[..|pages'| - 1] == init;
    }
  }

  /** The last record of a full page once `t` was added, told from the page before. */
  function NewLast(page: seq<Transaction>, t: Transaction, collates: Collation): Transaction
    requires page != []
  {
    var before, last := MostRecent(collates), |page| - 1;
    if !before(t, page[last]) then page[last]
    else if last == 0 || !before(t, page[last - 1]) then t
    else page[last - 1]
  }

  /** A fresh record lands on a full page if it precedes the last record there, which it then pushes off. */
  lemma LandsOrStays(matched: seq<Transaction>, t: Transaction, limit: nat, collates: Collation)
    requires StrictTotal(collates) && Sorted(matched, MostRecent(collates))
    requires Distinct(matched) && !Has(matched, t.signature) && 1 <= limit <= |matched|
    ensures var page, next := Take(matched, limit), Take(Insert(t, matched, MostRecent(collates)), limit);
            && |page| == |next| == limit && next[limit - 1] == NewLast(page, t, collates)
            && (next[limit - 1].signature == page[limit - 1].signature <==> !MostRecent(collates)(t, page[limit - 1]))
            && (MostRecent(collates)(t, page[limit - 1]) ==> !Has(next, page[limit - 1].signature))
  {
    MostRecentIsStrictWeak(collates);
    var p := InsertPlace(t, matched, MostRecent(collates));
    hide MostRecent, StrictWeak, StrictTotal, Sorted, Insert;
    assert Take(matched, limit) == matched[..limit];
    if p < limit { PushedOff(matched, t, p, limit); }
  }

  lemma PushedOff(matched: seq<Transaction>, t: Transaction, p: nat, limit: nat)
    requires Distinct(matched) && !Has(matched, t.signature) && p < limit <= |matched|
    ensures var next := (matched[..p] + [t] + matched[p..])[..limit];
            && next[limit - 1] == (if p == limit - 1 then t else matched[limit - 2])
            && next[limit - 1].signature != matched[limit - 1].signature
            && !Has(next, matched[limit - 1].signature)
  {
    var next := (matched[..p] + [t] + matched[p..])[..limit];
    forall k | 0 <= k < limit ensures next[k].signature != matched[limit - 1].signature {
      assert next[k] == if k < p then matched[k] else if k == p then t else matched[k - 1];
    }
  }

  /** The upsert keeps the page's continuation cursor, a rebuild recomputes it. They agree while the token's history is shorter
      than the page. Once it overflows, they agree exactly when the new record does not precede the last one on the page;
      otherwise the kept cursor names the record just pushed off. On a history that fills the page exactly, the kept cursor is
      the source's, and agrees exactly when that already names the record that comes to be last. */
  lemma {:induction false} CursorAgreesExactlyWhen(
      pages: seq<Page>, q: Query, i: nat, j: nat, t: Transaction, collates: Collation)
    requires StrictTotal(collates) && q.limit >= 1
    requires i < |pages| && Shown(pages[i], q) && j <= |pages[i].transactions|
    requires MatchesMint(t, q.mint) && Fresh(pages, q, t.signature)
    requires WarmPage(pages, q, collates).Some?
    ensures var kept := WarmPage(pages, q, collates).value;
            var rebuilt := WarmPage(WithTransaction(pages, i, j, t), q, collates);
            var total := |CollectPages(pages, q)|;
            && rebuilt.Some?
            && (total < q.limit ==> rebuilt.value.cursor == kept.cursor)
            && (total >= q.limit ==>
                  && |kept.transactions| == q.limit
                  && var last := kept.transactions[q.limit - 1];
                  if total == q.limit then
                    && kept.cursor == SourceCursor(pages, q)
                    && (rebuilt.value.cursor == kept.cursor <==>
                        SourceCursor(pages, q) == Some(NewLast(kept.transactions, t, collates).signature))
                  else
                    && (rebuilt.value.cursor == kept.cursor <==> !MostRecent(collates)(t, last))
                    && (MostRecent(collates)(t, last) ==>
                          kept.cursor == Some(last.signature) && !Has(rebuilt.value.transactions, last.signature)))
  {
    hide *;
    var matched := BothPages(pages, q, i, j, t, collates);
    CursorsOf(matched, t, pages, WithTransaction(pages, i, j, t), q, collates);
  }

  lemma CursorsOf(
      matched: seq<Transaction>, t: Transaction, pages: seq<Page>, pages': seq<Page>, q: Query, collates: Collation)
    requires StrictTotal(collates) && Sorted(matched, MostRecent(collates))
    requires Distinct(matched) && !Has(matched, t.signature) && q.limit >= 1 && PageOf(matched, pages, q).Some?
    requires SourceCursor(pages', q) == SourceCursor(pages, q)
    ensures var kept := PageOf(matched, pages, q).value;
            var rebuilt := PageOf(Insert(t, matched, MostRecent(collates)), pages', q);
            && rebuilt.Some?
            && (|matched| < q.limit ==> rebuilt.value.cursor == kept.cursor)
            && (|matched| >= q.limit ==>
                  && |kept.transactions| == q.limit
                  && var last := kept.transactions[q.limit - 1];
                  if |matched| == q.limit then
                    && kept.cursor == SourceCursor(pages, q)
                    && (rebuilt.value.cursor == kept.cursor <==>
                        SourceCursor(pages, q) == Some(NewLast(kept.transactions, t, collates).signature))
                  else
                    && (rebuilt.value.cursor == kept.cursor <==> !MostRecent(collates)(t, last))
                    && (MostRecent(collates)(t, last) ==>
                          kept.cursor == Some(last.signature) && !Has(rebuilt.value.transactions, last.signature)))
  {
    InsertContents(t, matched, MostRecent(collates));
    hide Insert, SourceCursor, NewestFetch, Views, Distinct, Has, NewLast, MostRecent, Sorted, StrictTotal;
    if |matched| >= q.limit { LandsOrStays(matched, t, q.limit, collates); }
  }

  const OLD := Transaction("old", 1.0, Some("mint"), None, None, "")
  const RECENT := Transaction("recent", 2.0, Some("mint"), None, None, "")
  const FRESHER := Transaction("fresher", 3.0, Some("mint"), None, None, "")
  const ONE_PAGE := [Page("wallet", Devnet, [RECENT, OLD], [], [], None, 0)]
  const ONE_ROW := Query("wallet", Devnet, "mint", 1)

  /** A page of one row: the upsert shows the fresher record and goes on after the recent one, which is never shown again; a
      rebuild goes on after the fresher one. */
  lemma CursorSkipsARecord(collates: Collation)
    requires StrictTotal(collates)
    ensures var kept := WarmPage(ONE_PAGE, ONE_ROW, collates);
            var rebuilt := WarmPage(WithTransaction(ONE_PAGE, 0, 0, FRESHER), ONE_ROW, collates);
            && kept.Some? && kept.value.cursor == Some("recent")
            && rebuilt.Some? && rebuilt.value.cursor == Some("fresher") && rebuilt.value.transactions == [FRESHER]
  {
    var three := [FRESHER, RECENT, OLD];
    MatchThree();
    CollectDistinct([RECENT, OLD], "mint");
    CollectDistinct(three, "mint");
    SortsFirst([RECENT, OLD], collates);
    SortsFirst(three, collates);
    CollectOne(ONE_PAGE, ONE_ROW);
    CollectOne(WithTransaction(ONE_PAGE, 0, 0, FRESHER), ONE_ROW);
    assert WithTransaction(ONE_PAGE, 0, 0, FRESHER)[0].transactions == three;
    hide Collect, CollectPages, Sort, MatchesMint, MostRecent, Distinct, SourceCursor, NewestFetch, Views;
    assert WarmPage(ONE_PAGE, ONE_ROW, collates) == PageOf([RECENT, OLD], ONE_PAGE, ONE_ROW);
    hide WithTransaction, WarmPage;
  }

  lemma MatchThree()
    ensures forall t :: t in [FRESHER, RECENT, OLD] ==> MatchesMint(t, "mint")
    ensures Distinct([FRESHER, RECENT, OLD]) && Distinct([RECENT, OLD])
  {
    assert |"mint"| == 4 && |"SOL"| == 3 && |"native-sol"| == 10;
    assert |NATIVE_SOL_MINT| == 43;
    assert "old"[0] == 'o' && "recent"[0] == 'r' && "fresher"[0] == 'f';
  }

  lemma CollectOne(pages: seq<Page>, q: Query)
    requires |pages| == 1 && Shown(pages[0], q)
    ensures CollectPages(pages, q) == Collect([], pages[0].transactions, q.mint) && SourceCursor(pages, q) == pages[0].cursor
  {
    assert pages[..0] == [];
  }

  lemma {:induction false} CollectDistinct(transactions: seq<Transaction>, mint: string)
    requires Distinct(transactions) && forall t :: t in transactions ==> MatchesMint(t, mint)
    ensures Collect([], transactions, mint) == transactions
  {
    if transactions != [] {
      CollectDistinct(transactions[..|transactions| - 1], mint);
      assert transactions[|transactions| - 1] in transactions;
    }
  }

  lemma SortsFirst(s: seq<Transaction>, collates: Collation)
    requires forall i, j :: 0 <= i < j < |s| ==> s[i].timestamp > s[j].timestamp
    ensures Sort(s, MostRecent(collates)) == s
  {
    SortOfSorted(s, MostRecent(collates));
  }

  /** The page kept and the page rebuilt, both from the records matched before. */
  lemma BothPages(pages: seq<Page>, q: Query, i: nat, j: nat, t: Transaction, collates: Collation)
    returns (matched: seq<Transaction>)
    requires StrictTotal(collates) && q.limit >= 1
    requires i < |pages| && Shown(pages[i], q) && j <= |pages[i].transactions|
    requires MatchesMint(t, q.mint) && Fresh(pages, q, t.signature)
    ensures |matched| == |CollectPages(pages, q)| && Distinct(matched) && !Has(matched, t.signature)
    ensures Sorted(matched, MostRecent(collates))
    ensures WarmPage(pages, q, collates) == PageOf(matched, pages, q)
    ensures WarmPage(WithTransaction(pages, i, j, t), q, collates)
            == PageOf(Insert(t, matched, MostRecent(collates)), WithTransaction(pages, i, j, t), q)
    ensures SourceCursor(WithTransaction(pages, i, j, t), q) == SourceCursor(pages, q)
  {
    var before := MostRecent(collates);
    MostRecentIsStrictWeak(collates);
    SameSource(pages, q, i, j, t);
    var p, r := CollectPagesAround(pages, q, i, j, t);
    CollectPagesFresh(pages, q, t.signature);
    SortInsertAnywhere(p, t, r, before);
    matched := Sort(p + r, before);
    SortIsSortedPermutation(p + r, before);
    SameSignatures(p + r, matched);
    hide CollectPages, Sort, Insert, SourceCursor, NewestFetch, Distinct, Has, MatchesMint, Fresh, WithTransaction;
  }

  /** Upserts of two fresh signatures commute, whatever the cached page looked like. */
  lemma FreshUpsertsCommute(page: seq<Transaction>, a: Transaction, b: Transaction, limit: nat, collates: Collation)
    requires StrictTotal(collates)
    requires !Has(page, a.signature) && !Has(page, b.signature) && a.signature != b.signature
    ensures Upserted(Upserted(page, a, limit, collates), b, limit, collates)
         == Upserted(Upserted(page, b, limit, collates), a, limit, collates)
  {
    UpsertTwice(page, a, b, limit, collates);
    UpsertTwice(page, b, a, limit, collates);
    MostRecentIsStrictWeak(collates);
    InsertCommutes(a, b, Sort(PutAll(page), MostRecent(collates)), MostRecent(collates));
  }

  lemma UpsertTwice(page: seq<Transaction>, a: Transaction, b: Transaction, limit: nat, collates: Collation)
    requires StrictTotal(collates)
    requires !Has(page, a.signature) && !Has(page, b.signature) && a.signature != b.signature
    ensures Upserted(Upserted(page, a, limit, collates), b, limit, collates)
         == var before := MostRecent(collates);
            Take(Insert(b, Insert(a, Sort(PutAll(page), before), before), before), limit)
  {
    var before := MostRecent(collates);
    var entries := PutAll(page);
    PutAllIsDistinct(page);
    PutFresh(entries, a);
    assert (entries + [a])[..|entries|] == entries;
    PutKeepsDistinct(entries, a);
    SortedStaysInCacheOrder(entries + [a], limit, collates);
    var once := Insert(a, Sort(entries, before), before);
    UpsertFreshIsInsert(Take(once, limit), b, limit, collates);
    TakeInsert(b, once, limit, before);
  }
}
