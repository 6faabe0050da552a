/**
 `SteamReviewFetcher.extract_sentences_dataframe`: every cached page, every
 review not received for free, every sentence of its text, one row each.
 */
module Flattener {
  import opened Reviews

  /** One row of the resulting table. */
  datatype SentenceRow = SentenceRow(
    recommendationId: string,
    authorSteamId: string,
    authorNumGamesOwned: int,
    authorNumReviews: int,
    authorPlaytimeForever: int,
    authorPlaytimeLastTwoWeeks: int,
    votedUp: bool,
    sentence: string,
    timestamp: int)

  function RowFor(review: Review, sentence: string): SentenceRow
  {
    SentenceRow(
      review.recommendationId,
      review.author.steamId,
      review.author.numGamesOwned,
      review.author.numReviews,
      review.author.playtimeForever,
      review.author.playtimeLastTwoWeeks,
      review.votedUp,
      sentence,
      review.timestampUpdated)
  }

  /** The row holds the review's eight metadata fields unchanged. */
  predicate Carries(row: SentenceRow, review: Review)
  {
    row.recommendationId == review.recommendationId &&
    row.authorSteamId == review.author.steamId &&
    row.authorNumGamesOwned == review.author.numGamesOwned &&
    row.authorNumReviews == review.author.numReviews &&
    row.authorPlaytimeForever == review.author.playtimeForever &&
    row.authorPlaytimeLastTwoWeeks == review.author.playtimeLastTwoWeeks &&
    row.votedUp == review.votedUp &&
    row.timestamp == review.timestampUpdated
  }

  /** The rows of one review: one per sentence, in sentence order, each carrying the review's metadata. */
  function SentenceRows(tokenize: Tokenizer, review: Review): (rows: seq<SentenceRow>)
    ensures |rows| == |tokenize(review.review)|
    ensures forall k :: 0 <= k < |rows| ==>
      Carries(rows[k], review) && rows[k].sentence == tokenize(review.review)[k]
  {
    var sentences := tokenize(review.review);
    seq(|sentences|, k requires 0 <= k < |sentences| => RowFor(review, sentences[k]))
  }

  /** The reviews of the pages, in page order. */
  function AllReviews(pages: seq<Page>): seq<Review>
  {
    if pages == [] then [] else AllReviews(pages[..|pages| - 1]) + pages[|pages| - 1].reviews
  }

  /** The reviews not received for free, in their order. */
  function Kept(reviews: seq<Review>): seq<Review>
  {
    if reviews == [] then []
    else Kept(reviews[..|reviews| - 1]) + (if reviews[|reviews| - 1].receivedForFree then [] else [reviews[|reviews| - 1]])
  }

  /** The rows of the reviews, one review after the other. */
  function FlatRows(tokenize: Tokenizer, reviews: seq<Review>): seq<SentenceRow>
  {
    if reviews == [] then [] else FlatRows(tokenize, reviews[..|reviews| - 1]) + SentenceRows(tokenize, reviews[|reviews| - 1])
  }

  /** The table as a filter of the reviews followed by a flat-map to sentence rows. */
  function Flatten(tokenize: Tokenizer, pages: seq<Page>): seq<SentenceRow>
  {
    FlatRows(tokenize, Kept(AllReviews(pages)))
  }

  /** The pages a directory listing names, read in listing order. */
  function ListedPages(settings: Settings, directory: map<Path, Page>, listing: seq<string>): (pages: seq<Page>)
    requires forall name :: name in listing ==> settings.libs.join(settings.outputDir, name) in directory
    ensures |pages| == |listing|
    ensures forall i :: 0 <= i < |listing| ==> pages[i] == directory[settings.libs.join(settings.outputDir, listing[i])]
  {
    if listing == [] then []
    else
      ListedPages(settings, directory, listing[..|listing| - 1]) +
      [directory[settings.libs.join(settings.outputDir, listing[|listing| - 1])]]
  }

  // ---------------------------------------------------------------------
  // Concatenation

  lemma {:induction false} AllReviewsAppend(a: seq<Page>, b: seq<Page>)
    ensures AllReviews(a + b) == AllReviews(a) + AllReviews(b)
  {
    if b == [] {
      assert a + b == a;
    } else {
      var init, last := b[..|b| - 1], b[|b| - 1];
      AllReviewsAppend(a, init);
      assert (a + b)[..|a + b| - 1] == a + init;
      assert (a + b)[|a + b| - 1] == last;
      calc {
        AllReviews(a + b);
        AllReviews(a + init) + last.reviews;
        (AllReviews(a) + AllReviews(init)) + last.reviews;
        AllReviews(a) + (AllReviews(init) + last.reviews);
      }
    }
  }

  lemma {:induction false} KeptAppend(a: seq<Review>, b: seq<Review>)
    ensures Kept(a + b) == Kept(a) + Kept(b)
  {
    if b == [] {
      assert a + b == a;
    } else {
      var init, last := b[..|b| - 1], b[|b| - 1];
      var tail := if last.receivedForFree then [] else [last];
      KeptAppend(a, init);
      assert (a + b)[..|a + b| - 1] == a + init;
      assert (a + b)[|a + b| - 1] == last;
      calc {
        Kept(a + b);
        Kept(a + init) + tail;
        (Kept(a) + Kept(init)) + tail;
        Kept(a) + (Kept(init) + tail);
      }
    }
  }

  lemma {:induction false} FlatRowsAppend(tokenize: Tokenizer, a: seq<Review>, b: seq<Review>)
    ensures FlatRows(tokenize, a + b) == FlatRows(tokenize, a) + FlatRows(tokenize, b)
  {
    if b == [] {
      assert a + b == a;
    } else {
      var init, last := b[..|b| - 1], b[|b| - 1];
      FlatRowsAppend(tokenize, a, init);
      assert (a + b)[..|a + b| - 1] == a + init;
      assert (a + b)[|a + b| - 1] == last;
      calc {
        FlatRows(tokenize, a + b);
        FlatRows(tokenize, a + init) + SentenceRows(tokenize, last);
        (FlatRows(tokenize, a) + FlatRows(tokenize, init)) + SentenceRows(tokenize, last);
        FlatRows(tokenize, a) + (FlatRows(tokenize, init) + SentenceRows(tokenize, last));
      }
    }
  }

  /** Rows come in file order: the table of two runs of files is the two tables one after the other. */
  lemma FlattenAppend(tokenize: Tokenizer, a: seq<Page>, b: seq<Page>)
    ensures Flatten(tokenize, a + b) == Flatten(tokenize, a) + Flatten(tokenize, b)
  {
    AllReviewsAppend(a, b);
    KeptAppend(AllReviews(a), AllReviews(b));
    FlatRowsAppend(tokenize, Kept(AllReviews(a)), Kept(AllReviews(b)));
  }

  // ---------------------------------------------------------------------
  // What the table holds

  /** Sentences in the reviews not received for free. */
  function KeptSentenceCount(tokenize: Tokenizer, reviews: seq<Review>): nat
  {
    if reviews == [] then 0
    else
      KeptSentenceCount(tokenize, reviews[..|reviews| - 1]) +
      (if reviews[|reviews| - 1].receivedForFree then 0 else |tokenize(reviews[|reviews| - 1].review)|)
  }

  lemma {:induction false} FlatRowsOfKeptCount(tokenize: Tokenizer, reviews: seq<Review>)
    ensures |FlatRows(tokenize, Kept(reviews))| == KeptSentenceCount(tokenize, reviews)
  {
    if reviews != [] {
      var init, last := reviews[..|reviews| - 1], reviews[|reviews| - 1];
      FlatRowsOfKeptCount(tokenize, init);
      var tail := if last.receivedForFree then [] else [last];
      FlatRowsAppend(tokenize, Kept(init), tail);
      assert tail != [] ==> FlatRows(tokenize, tail) == SentenceRows(tokenize, last) by {
        if tail != [] {
          assert tail[..0] == [];
        }
      }
    }
  }

  /** The table has exactly one row per sentence of every review not received for free. */
  lemma FlattenCount(tokenize: Tokenizer, pages: seq<Page>)
    ensures |Flatten(tokenize, pages)| == KeptSentenceCount(tokenize, AllReviews(pages))
  {
    FlatRowsOfKeptCount(tokenize, AllReviews(pages));
  }

  lemma {:induction false} KeptAreNotFree(reviews: seq<Review>)
    ensures forall r :: r in Kept(reviews) ==> r in reviews && !r.receivedForFree
  {
    if reviews != [] {
      KeptAreNotFree(reviews[..|reviews| - 1]);
    }
  }

  lemma {:induction false} FlatRowsFrom(tokenize: Tokenizer, reviews: seq<Review>)
    ensures forall row :: row in FlatRows(tokenize, reviews) ==>
      exists r :: r in reviews && Carries(row, r) && row.sentence in tokenize(r.review)
  {
    if reviews != [] {
      var init, last := reviews[..|reviews| - 1], reviews[|reviews| - 1];
      FlatRowsFrom(tokenize, init);
      forall row | row in FlatRows(tokenize, reviews)
        ensures exists r :: r in reviews && Carries(row, r) && row.sentence in tokenize(r.review)
      {
        if row in FlatRows(tokenize, init) {
          var r :| r in init && Carries(row, r) && row.sentence in tokenize(r.review);
          assert r in reviews;
        } else {
          var rows := SentenceRows(tokenize, last);
          assert row in rows;
          var k :| 0 <= k < |rows| && rows[k] == row;
          assert Carries(row, last) && row.sentence == tokenize(last.review)[k];
        }
      }
    }
  }

  /**
   Every row comes from a review of the pages that was not received for free:
   it carries that review's metadata unchanged and one of its sentences.
   */
  lemma FlattenRowsFromPaidReviews(tokenize: Tokenizer, pages: seq<Page>)
    ensures forall row :: row in Flatten(tokenize, pages) ==>
      exists r :: r in AllReviews(pages) && !r.receivedForFree && Carries(row, r) && row.sentence in tokenize(r.review)
  {
    KeptAreNotFree(AllReviews(pages));
    FlatRowsFrom(tokenize, Kept(AllReviews(pages)));
  }

  /**
   A page of a single review: no rows if it was received for free, otherwise its
   sentence rows, in sentence order.
   */
  lemma OneReviewPage(tokenize: Tokenizer, page: Page)
    requires |page.reviews| == 1
    ensures var r := page.reviews[0];
      Flatten(tokenize, [page]) == if r.receivedForFree then [] else SentenceRows(tokenize, r)
  {
    var r := page.reviews[0];
    assert [page][..0] == [];
    assert AllReviews([page]) == [r];
    assert [r][..0] == [];
    if !r.receivedForFree {
      assert Kept([r]) == [r];
      assert FlatRows(tokenize, [r]) == SentenceRows(tokenize, r);
    } else {
      assert Kept([r]) == [];
    }
  }

  /**
   A page holding a review received for free followed by one whose text splits
   into three sentences gives exactly three rows, all of the second review.
   */
  lemma MixedPage(tokenize: Tokenizer, page: Page)
    requires |page.reviews| == 2
    requires page.reviews[0].receivedForFree && !page.reviews[1].receivedForFree
    requires |tokenize(page.reviews[1].review)| == 3
    ensures var rows := Flatten(tokenize, [page]);
      |rows| == 3 &&
      forall k :: 0 <= k < 3 ==> Carries(rows[k], page.reviews[1]) &&
                                 rows[k].sentence == tokenize(page.reviews[1].review)[k]
  {
    var a, b := page.reviews[0], page.reviews[1];
    assert [page][..0] == [];
    assert AllReviews([page]) == [a, b];
    assert [a, b][..1] == [a] && [a][..0] == [];
    assert Kept([a]) == [];
    assert Kept([a, b]) == Kept([a]) + [b];
    assert [b][..0] == [];
    assert FlatRows(tokenize, [b]) == SentenceRows(tokenize, b);
  }

  // ---------------------------------------------------------------------
  // The nested loops

  /** A free review adds no row to the rows of the reviews before it. */
  lemma FreeReviewStep(tokenize: Tokenizer, reviews: seq<Review>, j: nat)
    requires j < |reviews| && reviews[j].receivedForFree
    ensures FlatRows(tokenize, Kept(reviews[..j + 1])) == FlatRows(tokenize, Kept(reviews[..j]))
  {
    assert reviews[..j + 1][..j] == reviews[..j];
    assert Kept(reviews[..j]) + [] == Kept(reviews[..j]);
  }

  /** A paid review adds its sentence rows after the rows of the reviews before it. */
  lemma PaidReviewStep(tokenize: Tokenizer, reviews: seq<Review>, j: nat, prefix: seq<SentenceRow>)
    requires j < |reviews| && !reviews[j].receivedForFree
    ensures prefix + FlatRows(tokenize, Kept(reviews[..j])) + SentenceRows(tokenize, reviews[j]) ==
            prefix + FlatRows(tokenize, Kept(reviews[..j + 1]))
  {
    assert reviews[..j + 1][..j] == reviews[..j];
    var before := Kept(reviews[..j]);
    assert Kept(reviews[..j + 1]) == before + [reviews[j]];
    FlatRowsSnoc(tokenize, before, reviews[j]);
  }

  lemma FlatRowsSnoc(tokenize: Tokenizer, reviews: seq<Review>, review: Review)
    ensures FlatRows(tokenize, reviews + [review]) == FlatRows(tokenize, reviews) + SentenceRows(tokenize, review)
  {
    assert (reviews + [review])[..|reviews|] == reviews;
  }

  lemma SentenceRowsSnoc(tokenize: Tokenizer, review: Review, k: nat)
    requires k < |tokenize(review.review)|
    ensures SentenceRows(tokenize, review)[..k + 1] ==
            SentenceRows(tokenize, review)[..k] + [RowFor(review, tokenize(review.review)[k])]
  {
  }

  lemma FlattenSnoc(tokenize: Tokenizer, done: seq<Page>, page: Page)
    ensures Flatten(tokenize, done + [page]) == Flatten(tokenize, done) + FlatRows(tokenize, Kept(page.reviews))
  {
    FlattenAppend(tokenize, done, [page]);
    assert [page][..0] == [];
    assert AllReviews([page]) == page.reviews;
  }

  lemma ListedPagesSnoc(settings: Settings, directory: map<Path, Page>, listing: seq<string>, i: nat)
    requires forall name :: name in listing ==> settings.libs.join(settings.outputDir, name) in directory
    requires i < |listing|
    ensures ListedPages(settings, directory, listing[..i + 1]) ==
            ListedPages(settings, directory, listing[..i]) + [directory[settings.libs.join(settings.outputDir, listing[i])]]
  {
    assert listing[..i + 1][..i] == listing[..i];
  }

  /** Reading one more listed file appends the rows of its page. */
  lemma ListingStep(settings: Settings, directory: map<Path, Page>, listing: seq<string>, i: nat, tokenize: Tokenizer)
    requires forall name :: name in listing ==> settings.libs.join(settings.outputDir, name) in directory
    requires i < |listing|
    ensures var data := directory[settings.libs.join(settings.outputDir, listing[i])];
      Flatten(tokenize, ListedPages(settings, directory, listing[..i])) + FlatRows(tokenize, Kept(data.reviews)) ==
      Flatten(tokenize, ListedPages(settings, directory, listing[..i + 1]))
  {
    ListedPagesSnoc(settings, directory, listing, i);
    FlattenSnoc(tokenize, ListedPages(settings, directory, listing[..i]),
                directory[settings.libs.join(settings.outputDir, listing[i])]);
  }

  /** The innermost loop: one row per sentence of `review`. */
  method AppendSentenceRows(sentencesAndMetadata: seq<SentenceRow>, review: Review, tokenize: Tokenizer)
    returns (rows: seq<SentenceRow>)
    ensures rows == sentencesAndMetadata + SentenceRows(tokenize, review)
  {
    rows := sentencesAndMetadata;
    var sentences := tokenize(review.review);
    for k := 0 to |sentences|
      invariant rows == sentencesAndMetadata + SentenceRows(tokenize, review)[..k]
    {
      SentenceRowsSnoc(tokenize, review, k);
      rows := rows + [RowFor(review, sentences[k])];
    }
    assert SentenceRows(tokenize, review)[..|sentences|] == SentenceRows(tokenize, review);
  }

  /**
   The body of the loop over files: appends one row per sentence of each
   review of `data` not received for free.
   */
  method AppendPageRows(sentencesAndMetadata: seq<SentenceRow>, data: Page, tokenize: Tokenizer)
    returns (rows: seq<SentenceRow>)
    ensures rows == sentencesAndMetadata + FlatRows(tokenize, Kept(data.reviews))
  {
    rows := sentencesAndMetadata;
    for j := 0 to |data.reviews|
      invariant rows == sentencesAndMetadata + FlatRows(tokenize, Kept(data.reviews[..j]))
    {
      var review := data.reviews[j];
      if review.receivedForFree {
        FreeReviewStep(tokenize, data.reviews, j);
        continue;
      }
      rows := AppendSentenceRows(rows, review, tokenize);
      PaidReviewStep(tokenize, data.reviews, j, sentencesAndMetadata);
    }
    assert data.reviews[..|data.reviews|] == data.reviews;
  }

  /**
   Reads the listed files of the output directory in listing order and
   collects the rows of each.
   */
  method ExtractSentencesDataframe(settings: Settings, directory: map<Path, Page>, listing: seq<string>,
                                   tokenize: Tokenizer)
    returns (sentencesAndMetadata: seq<SentenceRow>)
    requires forall name :: name in listing ==> settings.libs.join(settings.outputDir, name) in directory
    ensures sentencesAndMetadata == Flatten(tokenize, ListedPages(settings, directory, listing))
  {
    sentencesAndMetadata := [];
    for i := 0 to |listing|
      invariant sentencesAndMetadata == Flatten(tokenize, ListedPages(settings, directory, listing[..i]))
    {
      var filepath := settings.libs.join(settings.outputDir, listing[i]);
      var data := directory[filepath];
      sentencesAndMetadata := AppendPageRows(sentencesAndMetadata, data, tokenize);
      ListingStep(settings, directory, listing, i, tokenize);
    }
    assert listing[..|listing|] == listing;
  }
}
