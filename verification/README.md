# Stock-news sentiment pass, in Dafny

A model of the decision logic of the stock-news sentiment view
(`newsfeed_nlp.py`). For a fetched feed, the view walks the entries in feed
order. It scores each title with the VADER analyzer and labels it
`Positive` when the compound score is above 0.05, `Negative` when it is
below -0.05, and `Neutral` otherwise. It also appends each title followed by
one space to the text the word cloud is built from. A feed without entries
shows a notice instead. The word-cloud step is reached only when that text is
non-empty.

- `classifier.dfy`, module `Classifier`: the three labels, the threshold
  classifier, the printed label names, and the two-decimal rounding used only
  when a score is displayed.
- `headlines.dfy`, module `Headlines`: feed entries, the per-entry rows, the
  accumulated word-cloud text, the page the view shows, and the loop itself
  as a method checked against the functional definitions.

The VADER analyzer is a parameter `score: string -> real` of every operation
that scores a title. Nothing is assumed about the range of its output.

The code does not partition entries into separate positive, neutral and
negative lists, keep counts, or raise a dedicated scoring error. The model
follows the code in this: each entry gets one row carrying its label.
`CountsPartition` and `FeedCountsPartition` state only what follows from one
label per row. The model covers runs in which every entry has all three
fields and the analyzer returns a score for every title. What the code does
when either fails is listed under "Left out".

## Model

| member | source | states |
|---|---|---|
| Classifier.Classify | newsfeed_nlp.py:72-77 | the label is Positive exactly when the score is strictly above 0.05, Negative exactly when strictly below -0.05, and Neutral exactly when -0.05 <= score <= 0.05 |
| Classifier.ThresholdsAreNeutral | newsfeed_nlp.py:72-77 | scores of exactly 0.05 and -0.05 are both Neutral |
| Classifier.JustPastThresholds | newsfeed_nlp.py:72-75 | any score above 0.05 is Positive and any score below -0.05 is Negative, however close it is to the threshold |
| Classifier.ClassifyMonotone | newsfeed_nlp.py:72-77 | a higher score never gets a less positive label, under Negative < Neutral < Positive |
| Classifier.ClassifyAntisymmetric | newsfeed_nlp.py:72-77 | negating a score swaps Positive and Negative and keeps Neutral |
| Classifier.LabelNameInjective | newsfeed_nlp.py:73-77 | the three printed words are distinct |
| Classifier.Round2 | newsfeed_nlp.py:81 | the displayed score is a whole number of hundredths within 0.005 of the score |
| Classifier.RoundingWouldChangeLabel | newsfeed_nlp.py:69-81 | 0.054 is labelled Positive but displays as 0.05, which on its own is Neutral, so the label is taken from the unrounded score |
| Headlines.ScoreEntry | newsfeed_nlp.py:61-77 | an entry's row holds the entry and the analyzer's score of its title; its label is Positive exactly when that unrounded score is above 0.05, Negative exactly when below -0.05, Neutral otherwise |
| Headlines.Rows | newsfeed_nlp.py:60-77 | one row per entry, in feed order; row i holds entry i, the analyzer's score of entry i's title and the label of that score |
| Headlines.RowsAppend | newsfeed_nlp.py:60-77 | the rows of a concatenated feed are the rows of its two parts, concatenated |
| Headlines.RowsReplaceEntry | newsfeed_nlp.py:60-77 | replacing one entry changes that entry's row and no other |
| Headlines.CountsPartition | newsfeed_nlp.py:71-77 | the numbers of Positive, Neutral and Negative rows add up to the number of rows |
| Headlines.FeedCountsPartition | newsfeed_nlp.py:60-77 | over the rows of a feed, the numbers of Positive, Neutral and Negative labels add up to the number of entries |
| Headlines.Corpus | newsfeed_nlp.py:57-66 | `all_headlines`: its own contract says only that the text has at least one character per entry; CorpusLength and CorpusHoldsTitle together fix its whole content |
| Headlines.CorpusSingle | newsfeed_nlp.py:66 | the text of one entry is its title followed by one space |
| Headlines.CorpusAppend | newsfeed_nlp.py:57-66 | the text for a concatenated feed is the text of its two parts, concatenated |
| Headlines.CorpusCons | newsfeed_nlp.py:57-66 | the text is the first title, a space, then the text of the remaining entries |
| Headlines.CorpusSplitAt | newsfeed_nlp.py:57-66 | the text is the text of the entries before i, then title i and one space, then the text of the entries after i |
| Headlines.CorpusLength | newsfeed_nlp.py:57-66 | the text's length is the sum of (title length + 1) over the entries |
| Headlines.CorpusHoldsTitle | newsfeed_nlp.py:57-66 | title i occurs in the text at the offset given by the lengths of the titles before it, followed by one space |
| Headlines.TitlesAtLeastCount | newsfeed_nlp.py:66 | the sum of (title length + 1) is at least the number of entries |
| Headlines.CorpusNonEmpty | newsfeed_nlp.py:53-66 | a feed with at least one entry gives text at least as long as the number of entries, even if every title is empty |
| Headlines.View | newsfeed_nlp.py:53-91 | the notice is shown exactly when the feed has no entries; otherwise the rows are shown and the guard at line 87 always holds, so `generate_wordcloud` is always called on the full text |
| Headlines.AnalyzeFeed | newsfeed_nlp.py:57-77 | the loop yields one row per entry in feed order, each labelled from the unrounded score of its own title, and text equal to the titles each followed by a space, of length sum of (title length + 1) |
| Headlines.ThreeHeadlines | newsfeed_nlp.py:53-89 | three titles scored 0.62, -0.55 and 0.0 give Positive, Negative and Neutral rows and the text "Stock up Firm sued Flat day " |

## Left out

- Fetching the RSS feed and building its URL (newsfeed_nlp.py:15-19): network I/O through a foreign library. The model starts from the list of entries.
- Downloading the VADER lexicon, constructing the analyzer, and the internals of `polarity_scores` (newsfeed_nlp.py:9-12, 22-25): foreign code. The analyzer is the parameter `score`, with no range assumed. A failing analyzer raises an exception in the source that nothing catches. The model has no error path for it because the scorer is a total function.
- Word-cloud generation and the matplotlib and Streamlit rendering (newsfeed_nlp.py:28-40, 88-89): image rendering. The model only records which text the word cloud would be built from.
- The Streamlit widgets, the spinner, the empty-ticker check and the `.upper()` of the ticker (newsfeed_nlp.py:44-51, 54, 80-84): UI plumbing. The printed rows are modelled as data, and the "no news" notice of line 91 is the `NoNews` page.
- Missing entry fields: lines 61-63 read `entry.title`, `entry.link` and `entry.published` without a check, so an entry lacking one of them raises an AttributeError. `Entry` has all three fields, so the model does not cover such entries.
- Partial output on failure: the `st.write` calls at lines 80-84 run inside the loop. When entry k fails (a missing field or an exception from `analyze_sentiment`), rows 0 to k-1 are already on the page and no word cloud follows. The model has no failure path, so it does not show this partial page. In particular the code does not give an all-or-nothing result.
- Word-cloud generation on text without words: the guard at line 87 passes for any non-empty text, including a feed whose titles are all empty (text " "). `WordCloud.generate` then fails, and the model does not cover that failure.
- Binary floating point: scores and the 0.05 thresholds are exact reals, so the representation error of the literal 0.05 is not modelled.
- Classifier.Round2: its contract states only that the result is a nearest hundredth. The body rounds exact ties to the even hundredth, and the contract does not say so. Python's `:.2f` formats the binary value, and that is not modelled.
