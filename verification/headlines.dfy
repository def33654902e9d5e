/** The per-headline pass of the feed view: every feed entry, in feed order,
    is scored by the sentiment analyzer and labelled, and its title followed by
    one space is appended to the text the word cloud is built from. The
    analyzer is a parameter `score`; nothing is assumed about its range. */
module Headlines {
  import opened Classifier

  datatype Option<+T> = None | Some(value: T)

  /** One feed entry as the view reads it. */
  datatype Entry = Entry(title: string, link: string, published: string)

  /** What the view shows for one entry: the entry, its unrounded score and its label. */
  datatype Row = Row(entry: Entry, score: real, sentiment: Label)

  /** What the view shows for a fetched feed: a notice when it has no entries,
      otherwise one row per entry and, when there is text, a word cloud. */
  datatype Page = NoNews | News(rows: seq<Row>, wordCloud: Option<string>)

  /** The row for one entry: the analyzer's score of its title, and the label
      that the threshold chain picks for that unrounded score. */
  function ScoreEntry(e: Entry, score: string -> real): (r: Row)
    ensures r.entry == e && r.score == score(e.title)
    ensures r.sentiment == Positive <==> score(e.title) > PositiveThreshold
    ensures r.sentiment == Negative <==> score(e.title) < NegativeThreshold
    ensures r.sentiment == Neutral <==> NegativeThreshold <= score(e.title) <= PositiveThreshold
  {
    var s := score(e.title);
    Row(e, s, Classify(s))
  }

  /** The rows of the loop, accumulated in feed order. */
  function Rows(entries: seq<Entry>, score: string -> real): (rows: seq<Row>)
    ensures |rows| == |entries|
    ensures forall i :: 0 <= i < |entries| ==> rows[i] == ScoreEntry(entries[i], score)
  {
    if |entries| == 0 then []
    else Rows(entries[..|entries| - 1], score) + [ScoreEntry(entries[|entries| - 1], score)]
  }

  /** The accumulated word-cloud text: each title followed by one space. Every
      entry adds at least its space. */
  function Corpus(entries: seq<Entry>): (text: string)
    ensures |text| >= |entries|
  {
    if |entries| == 0 then ""
    else Corpus(entries[..|entries| - 1]) + entries[|entries| - 1].title + " "
  }

  /** The sum of |title| + 1 over the entries. */
  function TitlesLength(entries: seq<Entry>): nat
  {
    if |entries| == 0 then 0 else |entries[0].title| + 1 + TitlesLength(entries[1..])
  }

  /** The text of two runs of the loop is the text of the run over both. */
  lemma {:induction false} CorpusAppend(a: seq<Entry>, b: seq<Entry>)
    ensures Corpus(a + b) == Corpus(a) + Corpus(b)
    decreases |b|
  {
    if |b| == 0 {
      assert a + b == a;
    } else {
      SplitLastOfAppend(a, b);
      CorpusAppend(a, b[..|b| - 1]);
    }
  }

  /** The text starts with the first title and a space, then the text of the rest. */
  lemma CorpusCons(entries: seq<Entry>)
    requires |entries| > 0
    ensures Corpus(entries) == entries[0].title + " " + Corpus(entries[1..])
  {
    SplitFirst(entries);
    CorpusAppend([entries[0]], entries[1..]);
    CorpusSingle(entries[0]);
  }

  /** Dropping the last entry of a concatenation with a non-empty second part
      drops it from the second part. */
  lemma SplitLastOfAppend(a: seq<Entry>, b: seq<Entry>)
    requires |b| > 0
    ensures (a + b)[..|a + b| - 1] == a + b[..|b| - 1]
    ensures (a + b)[|a + b| - 1] == b[|b| - 1]
  {
  }

  /** A feed is its entries before i followed by those from i on, whose first
      entry is entry i and whose rest is the entries after i. */
  lemma SplitAt(entries: seq<Entry>, i: nat)
    requires i < |entries|
    ensures entries == entries[..i] + entries[i..]
    ensures entries[i..][0] == entries[i]
    ensures entries[i..][1..] == entries[i + 1..]
  {
  }

  /** A non-empty feed is its first entry followed by the rest. */
  lemma SplitFirst(entries: seq<Entry>)
    requires |entries| > 0
    ensures entries == [entries[0]] + entries[1..]
  {
  }

  /** The text of a single entry is its title and a space. */
  lemma CorpusSingle(e: Entry)
    ensures Corpus([e]) == e.title + " "
  {
    assert [e][..0] == [];
  }

  /** The word-cloud text is as long as all titles plus one space per entry. */
  lemma {:induction false} CorpusLength(entries: seq<Entry>)
    ensures |Corpus(entries)| == TitlesLength(entries)
    decreases |entries|
  {
    if |entries| > 0 {
      CorpusCons(entries);
      CorpusLength(entries[1..]);
    }
  }

  /** Where the i-th title starts in the word-cloud text. */
  function TitleOffset(entries: seq<Entry>, i: nat): nat
    requires i <= |entries|
  {
    TitlesLength(entries[..i])
  }

  /** The i-th title sits, in feed order, at its offset and is followed by one space. */
  lemma CorpusHoldsTitle(entries: seq<Entry>, i: nat)
    requires i < |entries|
    ensures TitleOffset(entries, i) + |entries[i].title| < |Corpus(entries)|
    ensures Corpus(entries)[TitleOffset(entries, i)..TitleOffset(entries, i) + |entries[i].title|] == entries[i].title
    ensures Corpus(entries)[TitleOffset(entries, i) + |entries[i].title|] == ' '
  {
    CorpusSplitAt(entries, i);
    CorpusLength(entries[..i]);
    TitleBetween(Corpus(entries[..i]), entries[i].title, Corpus(entries[i + 1..]));
  }

  /** The text is the text of the entries before i, title i and a space, then
      the text of the entries after i. */
  lemma CorpusSplitAt(entries: seq<Entry>, i: nat)
    requires i < |entries|
    ensures Corpus(entries) == Corpus(entries[..i]) + (entries[i].title + " ") + Corpus(entries[i + 1..])
  {
    SplitAt(entries, i);
    CorpusAppend(entries[..i], entries[i..]);
    CorpusCons(entries[i..]);
  }

  /** A title placed between two texts, followed by a space, can be read back
      at the length of the first text. */
  lemma TitleBetween(before: string, title: string, after: string)
    ensures (before + (title + " ") + after)[|before|..|before| + |title|] == title
    ensures (before + (title + " ") + after)[|before| + |title|] == ' '
  {
  }

  /** A feed with at least one entry gives non-empty word-cloud text, even when
      every title is empty. */
  lemma CorpusNonEmpty(entries: seq<Entry>)
    requires |entries| > 0
    ensures |Corpus(entries)| >= |entries|
  {
    CorpusLength(entries);
    TitlesAtLeastCount(entries);
  }

  /** Every entry adds at least its separating space. */
  lemma {:induction false} TitlesAtLeastCount(entries: seq<Entry>)
    ensures TitlesLength(entries) >= |entries|
    decreases |entries|
  {
    if |entries| > 0 {
      TitlesAtLeastCount(entries[1..]);
    }
  }

  /** Rows of two runs of the loop are the rows of the run over both. */
  lemma RowsAppend(a: seq<Entry>, b: seq<Entry>, score: string -> real)
    ensures Rows(a + b, score) == Rows(a, score) + Rows(b, score)
  {
    var l, r := Rows(a + b, score), Rows(a, score) + Rows(b, score);
    assert |l| == |r|;
    forall i | 0 <= i < |l|
      ensures l[i] == r[i]
    {
      if i < |a| {
        assert (a + b)[i] == a[i];
      } else {
        assert (a + b)[i] == b[i - |a|];
      }
    }
  }

  /** Rows are computed entry by entry: replacing one entry of the feed
      changes its own row and no other. */
  lemma RowsReplaceEntry(entries: seq<Entry>, score: string -> real, i: nat, e: Entry)
    requires i < |entries|
    ensures Rows(entries[i := e], score) == Rows(entries, score)[i := ScoreEntry(e, score)]
  {
    var l, r := Rows(entries[i := e], score), Rows(entries, score)[i := ScoreEntry(e, score)];
    assert |l| == |r|;
    forall j | 0 <= j < |l|
      ensures l[j] == r[j]
    {
    }
  }

  /** How many rows carry a label. */
  function CountLabel(rows: seq<Row>, l: Label): nat
  {
    if |rows| == 0 then 0
    else (if rows[0].sentiment == l then 1 else 0) + CountLabel(rows[1..], l)
  }

  /** Each entry gets exactly one of the three labels, so the label counts add
      up to the number of entries. */
  lemma {:induction false} CountsPartition(rows: seq<Row>)
    ensures CountLabel(rows, Positive) + CountLabel(rows, Neutral) + CountLabel(rows, Negative) == |rows|
    decreases |rows|
  {
    if |rows| > 0 {
      CountsPartition(rows[1..]);
    }
  }

  /** Over the rows of a feed, the label counts add up to the number of entries. */
  lemma FeedCountsPartition(entries: seq<Entry>, score: string -> real)
    ensures CountLabel(Rows(entries, score), Positive) + CountLabel(Rows(entries, score), Neutral)
      + CountLabel(Rows(entries, score), Negative) == |entries|
  {
    CountsPartition(Rows(entries, score));
  }

  /** The view for a fetched feed: no entries shows the notice; otherwise the
      rows, and a word cloud built from the accumulated text when that text is
      non-empty. */
  function View(entries: seq<Entry>, score: string -> real): (p: Page)
    ensures p.NoNews? <==> |entries| == 0
    ensures p.News? ==> p.rows == Rows(entries, score) && p.wordCloud == Some(Corpus(entries))
    ensures p.News? ==> p.wordCloud.Some? && |p.wordCloud.value| >= |entries| > 0
  {
    if |entries| == 0 then NoNews
    else
      var text := Corpus(entries);
      CorpusNonEmpty(entries);
      News(Rows(entries, score), if |text| > 0 then Some(text) else None)
  }

  /** The loop as the view runs it: title appended to the text first, then the
      title scored and labelled by the threshold chain. */
  method AnalyzeFeed(entries: seq<Entry>, score: string -> real) returns (rows: seq<Row>, allHeadlines: string)
    ensures |rows| == |entries|
    ensures forall i :: 0 <= i < |entries| ==>
      rows[i].entry == entries[i] && rows[i].score == score(entries[i].title)
      && rows[i].sentiment == Classify(score(entries[i].title))
    ensures allHeadlines == Corpus(entries)
    ensures |allHeadlines| == TitlesLength(entries)
  {
    rows, allHeadlines := [], "";
    for n := 0 to |entries|
      invariant rows == Rows(entries[..n], score)
      invariant allHeadlines == Corpus(entries[..n])
    {
      var entry := entries[n];
      var title := entry.title;
      allHeadlines := allHeadlines + title + " ";
      var sentimentScore := score(title);
      var sentiment: Label;
      if sentimentScore > 0.05 {
        sentiment := Positive;
      } else if sentimentScore < -0.05 {
        sentiment := Negative;
      } else {
        sentiment := Neutral;
      }
      rows := rows + [Row(entry, sentimentScore, sentiment)];
      assert entries[..n + 1][..n] == entries[..n];
    }
    assert entries[..|entries|] == entries;
    CorpusLength(entries);
  }

  /** The analyzer's scores for the three example headlines. */
  function ExampleScore(title: string): real
  {
    if title == "Stock up" then 0.62 else if title == "Firm sued" then -0.55 else 0.0
  }

  /** Three headlines scored 0.62, -0.55 and 0.0 are labelled Positive, Negative
      and Neutral, and the word-cloud text is the three titles, each with a space. */
  lemma ThreeHeadlines(feed: seq<Entry>)
    requires feed == [Entry("Stock up", "a", "1"), Entry("Firm sued", "b", "2"), Entry("Flat day", "c", "3")]
    ensures View(feed, ExampleScore) == News(
      [Row(feed[0], 0.62, Positive), Row(feed[1], -0.55, Negative), Row(feed[2], 0.0, Neutral)],
      Some("Stock up Firm sued Flat day "))
  {
    CorpusCons(feed);
    CorpusCons(feed[1..]);
    assert feed[1..][1..] == [feed[2]];
    CorpusSingle(feed[2]);
    assert Corpus(feed) == "Stock up Firm sued Flat day ";
    var rows := Rows(feed, ExampleScore);
    assert rows[0] == Row(feed[0], 0.62, Positive);
    assert rows[1] == Row(feed[1], -0.55, Negative);
    assert rows[2] == Row(feed[2], 0.0, Neutral);
  }
}
