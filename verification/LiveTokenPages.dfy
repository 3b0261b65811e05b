/** The guard of the live upsert of hooks/useOffpayWalletActivityStream.ts against the matcher of the warm rebuild of
    hooks/useOffpayWalletTokenTransactions.ts: the live one trims native mints. */
module LiveTokenPages {
  import opened Common
  import opened Ordering
  import opened TransactionPages

  predicate IsTrimmedNativeSolMint(mint: Option<string>) {
    mint.Some? && IsNativeSolMint(Some(Trim(mint.value)))
  }

  predicate MatchesTokenMint(t: Transaction, mint: Option<string>) {
    mint.Some? &&
    var viewMint := if t.display.Some? then t.display.value.tokenMint else None;
    if IsTrimmedNativeSolMint(mint)
    then IsTrimmedNativeSolMint(t.tokenMint) || IsSolSymbol(t.tokenSymbol) || IsTrimmedNativeSolMint(viewMint)
    else t.tokenMint == mint || viewMint == mint
  }

  /** A native mint with white space around it. */
  predicate Padded(mint: Option<string>) {
    IsTrimmedNativeSolMint(mint) && !IsNativeSolMint(mint)
  }

  lemma NativeIsTrimmed(mint: Option<string>)
    ensures IsNativeSolMint(mint) ==> IsTrimmedNativeSolMint(mint)
  {
    TrimFixed(NATIVE_SOL_MINT);
    TrimFixed("native-sol");
    TrimFixed("SOL");
    hide Trim, IsSpace;
  }

  /** What the warm rebuild matches, the live guard matches too. They differ exactly on padded native mints: under an exact
      native mint on a record whose own mints are native only once trimmed, and under a padded one on every native record that
      does not carry that very text. */
  lemma WarmMatchIsLiveMatch(t: Transaction, mint: string)
    ensures MatchesMint(t, mint) ==> MatchesTokenMint(t, Some(mint))
    ensures var viewMint := if t.display.Some? then t.display.value.tokenMint else None;
            MatchesTokenMint(t, Some(mint)) && !MatchesMint(t, mint)
            <==> if IsNativeSolMint(Some(mint)) then
                   && (Padded(t.tokenMint) || Padded(viewMint))
                   && !IsSolSymbol(t.tokenSymbol) && !IsNativeSolMint(t.tokenMint) && !IsNativeSolMint(viewMint)
                 else
                   && Padded(Some(mint)) && t.tokenMint != Some(mint) && viewMint != Some(mint)
                   && (IsSolSymbol(t.tokenSymbol) || IsTrimmedNativeSolMint(t.tokenMint) || IsTrimmedNativeSolMint(viewMint))
  {
    var viewMint := if t.display.Some? then t.display.value.tokenMint else None;
    NativeIsTrimmed(Some(mint));
    NativeIsTrimmed(t.tokenMint);
    NativeIsTrimmed(viewMint);
    hide Trim, IsSolSymbol;
  }

  /** White space around a native name never matters to the live guard, in the query or on the record. */
  lemma LiveNamesAgree(t: Transaction, a: string, b: string)
    requires Trim(a) in ["SOL", "native-sol", "So11111111111111111111111111111111111111112"]
    requires Trim(b) in ["SOL", "native-sol", "So11111111111111111111111111111111111111112"]
    ensures MatchesTokenMint(t, Some(a)) == MatchesTokenMint(t, Some(b))
    ensures MatchesTokenMint(t.(tokenMint := Some(a)), Some(b))
    ensures t.display.Some? ==> MatchesTokenMint(t.(display := Some(t.display.value.(tokenMint := Some(a)))), Some(b))
  {
    hide Trim;
  }

  /** A record under a padded name, which the live guard takes and the warm matcher does not. */
  lemma PaddedNameIsLiveOnly()
    ensures var t := Transaction("s", 1.0, Some(" SOL"), None, None, "");
            MatchesTokenMint(t, Some("SOL")) && !MatchesMint(t, "SOL") && !MatchesTokenMint(t, None)
  {
    assert " SOL"[1..] == "SOL";
    TrimFixed("SOL");
    assert Trim(" SOL") == TrimEnd("SOL") == "SOL";
  }

  // ----- The guarded upsert against the rebuild ---------------------------------------------------------------------

  /** The list shown for the token after the live event. */
  function GuardedUpsert(page: Page, t: Transaction, q: Query, collates: Collation): seq<Transaction> {
    if MatchesTokenMint(t, Some(q.mint)) then Upserted(page.transactions, t, q.limit, collates) else page.transactions
  }

  /** A record that the warm matcher refuses is not collected, wherever it stands in the history. */
  lemma {:induction false} CollectPagesWithout(pages: seq<Page>, q: Query, i: nat, j: nat, t: Transaction)
    requires i < |pages| && j <= |pages[i].transactions| && !MatchesMint(t, q.mint)
    ensures CollectPages(WithTransaction(pages, i, j, t), q) == CollectPages(pages, q)
  {
    var init, page := pages[..|pages| - 1], pages[|pages| - 1];
    var pages' := WithTransaction(pages, i, j, t);
    if i < |init| {
      CollectPagesWithout(init, q, i, j, t);
      assert pages'[..|pages'| - 1] == WithTransaction(init, i, j, t);
    } else {
      assert pages'[..|pages'| - 1] == init;
      var before, a, b := CollectPages(init, q), page.transactions[..j], page.transactions[j..];
      assert page.transactions == a + b;
      CollectSplit(before, a, b, q.mint);
      CollectSplit(before, a + [t], b, q.mint);
      assert (a + [t])[..|a|] == a;
    }
  }

  lemma WarmFirstPage(pages: seq<Page>, q: Query, collates: Collation, now: int)
    requires StrictTotal(collates) && Distinct(CollectPages(pages, q))
    ensures var matched := Sort(CollectPages(pages, q), MostRecent(collates));
            var shown := FirstPage(q.address, q.network, Cached(WarmPage(pages, q, collates)), now).transactions;
            shown == Take(matched, q.limit) && InCacheOrder(shown, collates) && |shown| <= q.limit
            && forall signature :: Has(shown, signature) ==> Has(CollectPages(pages, q), signature)
  {
    var matched := Sort(CollectPages(pages, q), MostRecent(collates));
    SortedStaysInCacheOrder(CollectPages(pages, q), q.limit, collates);
    forall signature | Has(Take(matched, q.limit), signature) ensures Has(matched, signature) {
      var i :| 0 <= i < |Take(matched, q.limit)| && Take(matched, q.limit)[i].signature == signature;
      assert matched[i].signature == signature;
    }
  }

  /** One bounded insertion leaves a bounded list as it was exactly when the new record falls off. */
  lemma InsertFallsOff(page: seq<Transaction>, t: Transaction, limit: nat, before: (Transaction, Transaction) -> bool)
    requires |page| <= limit && !Has(page, t.signature)
    ensures Take(Insert(t, page, before), limit) == page <==> !Has(Take(Insert(t, page, before), limit), t.signature)
  {
    var p := InsertSplits(t, page, before);
    var all := Insert(t, page, before);
    assert all == page[..p] + [t] + page[p..];
    assert all[p] == t;
    if p < limit {
      assert Take(all, limit)[p] == t;
      assert Has(Take(all, limit), t.signature);
    } else {
      assert p == limit == |page|;
      assert Take(all, limit) == page;
    }
  }

  /** A live event leaves the list that a rebuild from a history with its record would show, if and only if the live guard
      refuses the record, the warm matcher takes it too, or it is too old for the page anyway. */
  lemma LiveUpsertAgreesExactlyWhen(
      pages: seq<Page>, q: Query, i: nat, j: nat, t: Transaction, collates: Collation, now: int)
    requires StrictTotal(collates) && q.limit >= 1
    requires i < |pages| && Shown(pages[i], q) && j <= |pages[i].transactions| && Fresh(pages, q, t.signature)
    ensures var page := FirstPage(q.address, q.network, Cached(WarmPage(pages, q, collates)), now);
            var rebuilt := FirstPage(q.address, q.network, Cached(WarmPage(WithTransaction(pages, i, j, t), q, collates)), now);
            GuardedUpsert(page, t, q, collates) == rebuilt.transactions
            <==> || !MatchesTokenMint(t, Some(q.mint))
                 || MatchesMint(t, q.mint)
                 || !Has(Upserted(page.transactions, t, q.limit, collates), t.signature)
  {
    WarmMatchIsLiveMatch(t, q.mint);
    if MatchesMint(t, q.mint) {
      UpsertAgreesWithRebuild(pages, q, i, j, t, collates, now);
    } else {
      CollectPagesFresh(pages, q, t.signature);
      CollectPagesWithout(pages, q, i, j, t);
      var page := FirstPage(q.address, q.network, Cached(WarmPage(pages, q, collates)), now);
      var pages' := WithTransaction(pages, i, j, t);
      var rebuilt := FirstPage(q.address, q.network, Cached(WarmPage(pages', q, collates)), now);
      WarmFirstPage(pages, q, collates, now);
      WarmFirstPage(pages', q, collates, now);
      assert rebuilt.transactions == page.transactions;
      UpsertFreshIsInsert(page.transactions, t, q.limit, collates);
      InsertFallsOff(page.transactions, t, q.limit, MostRecent(collates));
    }
  }
}
