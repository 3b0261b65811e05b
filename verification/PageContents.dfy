/** What the live upsert and the warm rebuild show, told from the records they are given: which record stands for a signature,
    in what order, and what is cut. */
module PageContents {
  import opened Common
  import opened Ordering
  import opened TransactionPages

  /** `x` is listed ahead of `y`: it is newer, or as old with the smaller signature. */
  predicate Ahead(x: Transaction, y: Transaction, collates: Collation) {
    if x.timestamp == y.timestamp then collates(x.signature, y.signature) else x.timestamp > y.timestamp
  }

  /** `shown` lists the newest of `all`, at most `limit`, newest first, and leaves out only what comes behind everything
      shown. */
  ghost predicate ShowsNewest(shown: seq<Transaction>, all: seq<Transaction>, limit: nat, collates: Collation) {
    && |shown| == (if |all| <= limit then |all| else limit)
    && (forall x :: x in shown ==> x in all)
    && (forall i, j :: 0 <= i < j < |shown| ==> Ahead(shown[i], shown[j], collates))
    && (forall x, y :: x in all && x !in shown && y in shown ==> Ahead(y, x, collates))
  }

  lemma CutShowsNewest(all: seq<Transaction>, limit: nat, collates: Collation)
    requires StrictTotal(collates) && Distinct(all)
    ensures ShowsNewest(Take(Sort(all, MostRecent(collates)), limit), all, limit, collates)
  {
    var sorted := Sort(all, MostRecent(collates));
    var shown := Take(sorted, limit);
    MostRecentIsStrictWeak(collates);
    SortIsSortedPermutation(all, MostRecent(collates));
    TakeKeepsFirst(all, limit, MostRecent(collates));
    SortedStaysInCacheOrder(all, limit, collates);
    hide Sort, Take;
    forall i, j | 0 <= i < j < |shown| ensures Ahead(shown[i], shown[j], collates) {
      assert !MostRecent(collates)(shown[j], shown[i]);
      assert shown[i].signature != shown[j].signature;
    }
    forall x, y | x in all && x !in shown && y in shown ensures Ahead(y, x, collates) {
      assert !MostRecent(collates)(x, y);
      DistinctApart(all, x, y);
    }
  }

  lemma DistinctApart(all: seq<Transaction>, x: Transaction, y: Transaction)
    requires Distinct(all) && x in all && y in all && x != y
    ensures x.signature != y.signature
  {
    var i :| 0 <= i < |all| && all[i] == x;
    var j :| 0 <= j < |all| && all[j] == y;
    assert i != j;
  }

  // ----- The live upsert --------------------------------------------------------------------------------------------

  /** `x` is the last record of the page under its signature. */
  ghost predicate LastOf(page: seq<Transaction>, x: Transaction) {
    exists i :: 0 <= i < |page| && page[i] == x && forall j :: i < j < |page| ==> page[j].signature != x.signature
  }

  /** One record per signature of the page, the last one. */
  ghost predicate Lasts(all: seq<Transaction>, page: seq<Transaction>) {
    && Distinct(all) && (forall x :: x in all ==> LastOf(page, x))
    && (forall signature :: Has(all, signature) <==> Has(page, signature))
  }

  lemma {:induction false} PutReplaces(entries: seq<Transaction>, t: Transaction)
    requires Distinct(entries)
    ensures forall x :: x in Put(entries, t) <==> x == t || (x in entries && x.signature != t.signature)
  {
    if entries != [] {
      assert entries == [entries[0]] + entries[1..];
      if entries[0].signature != t.signature {
        PutReplaces(entries[1..], t);
      } else {
        assert forall x :: x in entries[1..] ==> x.signature != t.signature;
      }
    }
  }

  lemma LastOfOneMore(page: seq<Transaction>, t: Transaction)
    ensures LastOf(page + [t], t)
  {
    assert (page + [t])[|page|] == t;
  }

  lemma LastOfLonger(page: seq<Transaction>, x: Transaction, t: Transaction)
    requires LastOf(page, x) && x.signature != t.signature
    ensures LastOf(page + [t], x)
  {
    var i :| 0 <= i < |page| && page[i] == x && forall j :: i < j < |page| ==> page[j].signature != x.signature;
    assert (page + [t])[i] == x;
  }

  lemma LastsStep(entries: seq<Transaction>, page: seq<Transaction>, t: Transaction)
    requires Lasts(entries, page)
    ensures Lasts(Put(entries, t), page + [t])
  {
    PutKeepsDistinct(entries, t);
    PutReplaces(entries, t);
    LastOfOneMore(page, t);
    forall x | x in entries && x.signature != t.signature ensures LastOf(page + [t], x) {
      LastOfLonger(page, x, t);
    }
    forall signature ensures Has(page + [t], signature) <==> signature == t.signature || Has(page, signature) {
      HasParts(page, [t], signature);
      assert Has([t], signature) <==> [t][0].signature == signature;
    }
    hide Put, LastOf, Has, Distinct;
  }

  lemma {:induction false} PutAllLasts(page: seq<Transaction>)
    ensures Lasts(PutAll(page), page)
  {
    if page != [] {
      var init, t := page[..|page| - 1], page[|page| - 1];
      assert page == init + [t];
      hide Lasts, Put;
      PutAllLasts(init);
      LastsStep(PutAll(init), init, t);
    }
  }

  /** What stands for the signature of the incoming `t`: `t` itself, with the display of the known record where it has none. */
  ghost predicate StandsFor(page: seq<Transaction>, t: Transaction, x: Transaction) {
    && (!Has(page, t.signature) ==> x == t)
    && (forall known :: LastOf(page, known) && known.signature == t.signature ==>
          x == t.(display := if t.display.Some? then t.display else known.display))
  }

  lemma {:induction false} LookupFinds(entries: seq<Transaction>, signature: string)
    ensures var known := Lookup(entries, signature);
            if known.Some? then known.value in entries && known.value.signature == signature else !Has(entries, signature)
  {
    if entries != [] {
      assert entries == [entries[0]] + entries[1..];
      LookupFinds(entries[1..], signature);
      HasCons(entries[0], entries[1..]);
    }
  }

  lemma LastIsOne(page: seq<Transaction>, x: Transaction, y: Transaction)
    requires LastOf(page, x) && LastOf(page, y) && x.signature == y.signature
    ensures x == y
  {
  }

  /** On any page, the upsert shows the newest of: the last record of every other signature, and the incoming one, with the
      display it lacks taken over from the record it replaces. */
  lemma UpsertShows(page: seq<Transaction>, t: Transaction, limit: nat, collates: Collation) returns (all: seq<Transaction>)
    requires StrictTotal(collates)
    ensures ShowsNewest(Upserted(page, t, limit, collates), all, limit, collates)
    ensures Distinct(all)
    ensures forall x :: x in all ==> if x.signature == t.signature then StandsFor(page, t, x) else LastOf(page, x)
    ensures forall signature :: Has(all, signature) <==> signature == t.signature || Has(page, signature)
  {
    var entries := PutAll(page);
    PutAllLasts(page);
    var known := Lookup(entries, t.signature);
    LookupFinds(entries, t.signature);
    var merged := Merge(known, t);
    assert StandsFor(page, t, merged) by {
      if known.Some? {
        forall k | LastOf(page, k) && k.signature == t.signature ensures k == known.value {
          LastIsOne(page, k, known.value);
        }
      }
    }
    all := Put(entries, merged);
    PutKeepsDistinct(entries, merged);
    PutReplaces(entries, merged);
    CutShowsNewest(all, limit, collates);
  }

  // ----- The warm rebuild -------------------------------------------------------------------------------------------

  /** All matching records of the pages shown, in order, repeats included. */
  function Matching(pages: seq<Page>, q: Query): seq<Transaction> {
    if pages == [] then []
    else
      var page := pages[|pages| - 1];
      Matching(pages[..|pages| - 1], q)
      + (if page.address == q.address && page.network == q.network then MatchingOf(page.transactions, q.mint) else [])
  }

  function MatchingOf(transactions: seq<Transaction>, mint: string): seq<Transaction> {
    if transactions == [] then []
    else
      var t := transactions[|transactions| - 1];
      MatchingOf(transactions[..|transactions| - 1], mint) + (if MatchesMint(t, mint) then [t] else [])
  }

  /** `x` is the first of `records` under its signature. */
  ghost predicate FirstOf(records: seq<Transaction>, x: Transaction) {
    exists i :: 0 <= i < |records| && records[i] == x && forall j :: 0 <= j < i ==> records[j].signature != x.signature
  }

  /** One record per signature, the first one. */
  ghost predicate Firsts(all: seq<Transaction>, records: seq<Transaction>) {
    && Distinct(all) && (forall x :: x in all ==> FirstOf(records, x))
    && (forall signature :: Has(all, signature) <==> Has(records, signature))
  }

  lemma FirstsStep(all: seq<Transaction>, records: seq<Transaction>, t: Transaction)
    requires Firsts(all, records)
    ensures Firsts(if Has(all, t.signature) then all else all + [t], records + [t])
  {
    var next := if Has(all, t.signature) then all else all + [t];
    forall signature ensures Has(next, signature) <==> Has(records + [t], signature) {
      HasParts(all, [t], signature);
      HasParts(records, [t], signature);
      assert Has([t], signature) <==> [t][0].signature == signature;
    }
    forall x | x in next ensures FirstOf(records + [t], x) {
      if x in all {
        var i :| 0 <= i < |records| && records[i] == x && forall j :: 0 <= j < i ==> records[j].signature != x.signature;
        assert (records + [t])[i] == x;
      } else {
        assert (records + [t])[|records|] == x;
        assert !Has(records, x.signature);
      }
    }
    if !Has(all, t.signature) {
      forall i | 0 <= i < |all| ensures all[i].signature != t.signature {}
    }
  }

  lemma {:induction false} CollectFirsts(
      entries: seq<Transaction>, records: seq<Transaction>, transactions: seq<Transaction>, mint: string)
    requires Firsts(entries, records)
    ensures Firsts(Collect(entries, transactions, mint), records + MatchingOf(transactions, mint))
  {
    if transactions == [] {
      assert records + [] == records;
    } else {
      var init, t := transactions[..|transactions| - 1], transactions[|transactions| - 1];
      CollectFirsts(entries, records, init, mint);
      var before, seen := Collect(entries, init, mint), records + MatchingOf(init, mint);
      if MatchesMint(t, mint) {
        FirstsStep(before, seen, t);
        assert seen + [t] == records + MatchingOf(transactions, mint);
      } else {
        assert seen == records + MatchingOf(transactions, mint);
      }
    }
  }

  lemma {:induction false} CollectPagesFirsts(pages: seq<Page>, q: Query)
    ensures Firsts(CollectPages(pages, q), Matching(pages, q))
  {
    if pages == [] {
    } else {
      var init, page := pages[..|pages| - 1], pages[|pages| - 1];
      CollectPagesFirsts(init, q);
      hide Firsts, Collect;
      if Shown(page, q) {
        CollectFirsts(CollectPages(init, q), Matching(init, q), page.transactions, q.mint);
      } else {
        assert Matching(pages, q) == Matching(init, q) + [];
        assert Matching(init, q) + [] == Matching(init, q);
      }
    }
  }

  lemma FirstsOfNone(all: seq<Transaction>, records: seq<Transaction>)
    requires Firsts(all, records)
    ensures all == [] <==> records == []
  {
    if records != [] { assert Has(records, records[0].signature); }
    if all != [] { assert Has(all, all[0].signature); }
  }

  /** The warm page shows the newest of the first matching record of every signature; there is none exactly when nothing
      matches. */
  lemma WarmPageShows(pages: seq<Page>, q: Query, collates: Collation) returns (all: seq<Transaction>)
    requires StrictTotal(collates)
    ensures Firsts(all, Matching(pages, q))
    ensures var warm := WarmPage(pages, q, collates);
            && (warm.None? <==> Matching(pages, q) == [] || q.limit == 0)
            && (warm.Some? ==>
                  && ShowsNewest(warm.value.transactions, all, q.limit, collates)
                  && warm.value.address == q.address && warm.value.network == q.network && warm.value.historyGroups == []
                  && warm.value.displayTransactions == Views(warm.value.transactions)
                  && (|all| > q.limit ==> warm.value.cursor == Some(warm.value.transactions[q.limit - 1].signature))
                  && (|all| <= q.limit ==> warm.value.cursor == SourceCursor(pages, q)))
  {
    all := CollectPages(pages, q);
    CollectPagesFirsts(pages, q);
    CutShowsNewest(all, q.limit, collates);
    MostRecentIsStrictWeak(collates);
    SortIsSortedPermutation(all, MostRecent(collates));
    hide CollectPages, Sort, Matching;
    FirstsOfNone(all, Matching(pages, q));
  }

  /** The cursor taken over is that of the last page shown, whatever the pages before it. */
  lemma {:induction false} LastShownCursor(pages: seq<Page>, q: Query, i: nat)
    requires i < |pages| && pages[i].address == q.address && pages[i].network == q.network
    requires forall j :: i < j < |pages| ==> pages[j].address != q.address || pages[j].network != q.network
    ensures SourceCursor(pages, q) == pages[i].cursor
  {
    if i < |pages| - 1 { LastShownCursor(pages[..|pages| - 1], q, i); }
  }

  /** The fetch time is the latest of the pages shown, and never before zero. */
  lemma {:induction false} NewestFetchIsLatest(pages: seq<Page>, q: Query)
    ensures var latest := NewestFetch(pages, q);
            && latest >= 0
            && (forall i :: 0 <= i < |pages| && Shown(pages[i], q) ==> pages[i].fetchedAt <= latest)
            && (latest > 0 ==> exists i :: 0 <= i < |pages| && Shown(pages[i], q) && pages[i].fetchedAt == latest)
  {
    if pages != [] {
      var init := pages[..|pages| - 1];
      NewestFetchIsLatest(init, q);
      assert forall i :: 0 <= i < |init| ==> init[i] == pages[i];
      if NewestFetch(init, q) > 0 {
        var i :| 0 <= i < |init| && Shown(init[i], q) && init[i].fetchedAt == NewestFetch(init, q);
        assert pages[i].fetchedAt == NewestFetch(init, q);
      }
    }
  }

  /** The display list holds the displays of the records that have one, in order. */
  lemma {:induction false} ViewsOfNext(a: seq<Transaction>, t: Transaction)
    ensures Views(a + [t]) == Views(a) + (if t.display.Some? then [t.display.value] else [])
  {
    if a == [] {
      assert a + [t] == [t];
    } else {
      ViewsOfNext(a[1..], t);
      assert (a + [t])[1..] == a[1..] + [t] && (a + [t])[0] == a[0];
      var head := if a[0].display.Some? then [a[0].display.value] else [];
      var last := if t.display.Some? then [t.display.value] else [];
      assert Views(a + [t]) == head + Views(a[1..] + [t]);
      assert Views(a) == head + Views(a[1..]);
      hide Views;
      assert head + (Views(a[1..]) + last) == (head + Views(a[1..])) + last;
    }
  }

  // ----- What belongs to a token ------------------------------------------------------------------------------------

  /** The three names of the native mint are interchangeable, in the query and on the record. */
  lemma NativeNamesAgree(t: Transaction, a: string, b: string)
    requires a in ["SOL", "native-sol", "So11111111111111111111111111111111111111112"]
    requires b in ["SOL", "native-sol", "So11111111111111111111111111111111111111112"]
    ensures MatchesMint(t, a) == MatchesMint(t, b)
    ensures MatchesMint(t.(tokenMint := Some(a)), b)
    ensures t.display.Some? ==> MatchesMint(t.(display := Some(t.display.value.(tokenMint := Some(a)))), b)
  {
  }

  /** A symbol that trims to SOL in any case matches under a native name; under another mint only that very mint does. */
  lemma SymbolsMatchNativeOnly(t: Transaction, mint: string)
    ensures mint == "SOL" && t.tokenSymbol in {Some("SOL"), Some("sol"), Some("Sol")} ==> MatchesMint(t, mint)
    ensures mint !in ["SOL", "native-sol", "So11111111111111111111111111111111111111112"] ==>
              (MatchesMint(t, mint) <==>
                 t.tokenMint == Some(mint) || (t.display.Some? && t.display.value.tokenMint == Some(mint)))
  {
    TrimFixed("SOL");
    TrimFixed("sol");
    TrimFixed("Sol");
  }
}
