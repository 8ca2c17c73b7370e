/** Datasets over tab-delimited rows: the in-memory row source, the one-pass
    corpus scan that counts tokens and labels, and the unsupervised and
    supervised datasets that encode a row when it is accessed. */
module Datasets {
  import opened Results
  import opened Text
  import opened Labels
  import opened Encoding

  /** The tab that separates the columns of a row. */
  const FieldSeparator: char := '\t'

  /** What constructing or reading a dataset can raise. */
  datatype DatasetError =
    | NotEnoughValues(row: int)       // `text, label = fields[:2]` on a row without a tab
    | Lookup(error: EncodingError)    // a `KeyError` while encoding or building the class list

  // ---------------------------------------------------------------------------
  // InMemoryDataset
  // ---------------------------------------------------------------------------

  /** A row source held in memory: one tab-joined row per sample. */
  datatype InMemoryDataset = InMemoryDataset(records: seq<string>)

  /** The length of the shortest column: where `zip` stops. */
  function ShortestColumn(shortest: nat, columns: seq<seq<string>>): (n: nat)
    ensures n <= shortest
    ensures forall c :: 0 <= c < |columns| ==> n <= |columns[c]|
    ensures n == shortest || exists c :: 0 <= c < |columns| && n == |columns[c]|
    decreases |columns|
  {
    if columns == [] then shortest
    else
      var n := ShortestColumn(Min(shortest, |columns[0]|), columns[1..]);
      assert forall c :: 1 <= c < |columns| ==> columns[c] == columns[1..][c - 1];
      n
  }

  /** The `i`-th entry of every column: text, label, then the extra columns. */
  function ColumnsAt(texts: seq<string>, labels: seq<string>, extras: seq<seq<string>>, i: nat): (fields: seq<string>)
    requires i < |texts| && i < |labels| && forall c :: 0 <= c < |extras| ==> i < |extras[c]|
    ensures |fields| == 2 + |extras|
  {
    [texts[i], labels[i]] + seq(|extras|, c requires 0 <= c < |extras| => extras[c][i])
  }

  /** `InMemoryDataset(text_list, label_list, *args)`: row `i` is the tab-join
      of the `i`-th entry of every column, and there are as many rows as the
      shortest column has entries. */
  function NewInMemoryDataset(texts: seq<string>, labels: seq<string>, extras: seq<seq<string>>): (d: InMemoryDataset)
    ensures |d.records| <= |texts| && |d.records| <= |labels|
    ensures forall c :: 0 <= c < |extras| ==> |d.records| <= |extras[c]|
    ensures |d.records| == |texts| || |d.records| == |labels|
            || exists c :: 0 <= c < |extras| && |d.records| == |extras[c]|
  {
    var n := ShortestColumn(Min(|texts|, |labels|), extras);
    InMemoryDataset(seq(n, i requires 0 <= i < n => Join(ColumnsAt(texts, labels, extras, i), FieldSeparator)))
  }

  /** When no entry holds a tab, splitting row `i` gives back the `i`-th
      entries of the columns in order: the text first, the label second. */
  lemma InMemoryRowRoundTrip(texts: seq<string>, labels: seq<string>, extras: seq<seq<string>>, i: nat)
    requires i < |NewInMemoryDataset(texts, labels, extras).records|
    requires NoSeparator(ColumnsAt(texts, labels, extras, i), FieldSeparator)
    ensures var row := NewInMemoryDataset(texts, labels, extras).records[i];
      && Split(row, FieldSeparator) == ColumnsAt(texts, labels, extras, i)
      && TextOf(row) == texts[i]
      && HasLabelField(row) && LabelFieldOf(row) == labels[i]
  {
    SplitJoin(ColumnsAt(texts, labels, extras, i), FieldSeparator);
  }

  // ---------------------------------------------------------------------------
  // the corpus as the constructors see it
  // ---------------------------------------------------------------------------

  /** `_split_row(row)[0]`. */
  function TextOf(row: string): string
  {
    Split(row, FieldSeparator)[0]
  }

  /** The text is the row up to its first tab. */
  lemma TextOfRow(row: string)
    ensures TextOf(row) <= row && FieldSeparator !in TextOf(row)
    ensures TextOf(row) == row || row[|TextOf(row)|] == FieldSeparator
  {
    JoinSplit(row, FieldSeparator);
    SplitPiecesLackSeparator(row, FieldSeparator);
  }

  predicate HasLabelField(row: string)
  {
    |Split(row, FieldSeparator)| >= 2
  }

  predicate AllHaveLabelField(rows: seq<string>)
  {
    forall i :: 0 <= i < |rows| ==> HasLabelField(rows[i])
  }

  lemma AllHaveStep(rows: seq<string>, i: nat)
    requires i < |rows| && AllHaveLabelField(rows[..i]) && HasLabelField(rows[i])
    ensures AllHaveLabelField(rows[..i + 1])
  {
    assert rows[..i + 1] == rows[..i] + [rows[i]];
  }

  /** `_split_row(row)[1]`. */
  function LabelFieldOf(row: string): string
    requires HasLabelField(row)
  {
    Split(row, FieldSeparator)[1]
  }

  /** The label field is the tab-free field right after the text and its
      tab, ending at the next tab or at the end of the row. */
  lemma LabelFieldOfRow(row: string)
    requires HasLabelField(row)
    ensures FieldSeparator !in LabelFieldOf(row)
    ensures TextOf(row) + [FieldSeparator] + LabelFieldOf(row) <= row
    ensures var end := |TextOf(row)| + 1 + |LabelFieldOf(row)|;
            end == |row| || row[end] == FieldSeparator
  {
    var fields := Split(row, FieldSeparator);
    JoinSplit(row, FieldSeparator);
    SplitPiecesLackSeparator(row, FieldSeparator);
    assert row == fields[0] + [FieldSeparator] + Join(fields[1..], FieldSeparator);
  }

  /** What a `Counter` holds after `update(pieces(item))` for every item in
      turn: every piece of every item, counted with repetition. */
  function Tally(items: seq<string>, pieces: string -> seq<string>): multiset<string>
    decreases |items|
  {
    if items == [] then multiset{}
    else Tally(items[..|items| - 1], pieces) + multiset(pieces(items[|items| - 1]))
  }

  /** A piece is counted exactly when some item yields it. */
  lemma {:induction false} TallyHolds(items: seq<string>, pieces: string -> seq<string>, x: string)
    ensures x in Tally(items, pieces) <==> exists i :: 0 <= i < |items| && x in pieces(items[i])
    decreases |items|
  {
    if items != [] {
      var n := |items| - 1;
      TallyHolds(items[..n], pieces, x);
      assert forall i :: 0 <= i < n ==> items[..n][i] == items[i];
      if x in pieces(items[n]) {
        assert x in multiset(pieces(items[n]));
      }
    }
  }

  /** Every item's pieces are in the counter, each at least as often as the
      item yields it. */
  lemma {:induction false} TallyCountsEach(items: seq<string>, pieces: string -> seq<string>, i: nat)
    requires i < |items|
    ensures multiset(pieces(items[i])) <= Tally(items, pieces)
    decreases |items|
  {
    var n := |items| - 1;
    if i < n {
      TallyCountsEach(items[..n], pieces, i);
      assert items[..n][i] == items[i];
    }
  }

  /** Counting one more item adds its pieces. */
  lemma TallyStep(items: seq<string>, pieces: string -> seq<string>, i: nat)
    requires i < |items|
    ensures Tally(items[..i + 1], pieces) == Tally(items[..i], pieces) + multiset(pieces(items[i]))
  {
    assert items[..i + 1][..i] == items[..i];
  }

  /** The text column of a corpus. */
  function TextColumn(rows: seq<string>): (column: seq<string>)
    ensures |column| == |rows|
    ensures forall i :: 0 <= i < |rows| ==> column[i] == TextOf(rows[i])
  {
    seq(|rows|, i requires 0 <= i < |rows| => TextOf(rows[i]))
  }

  /** The label column of a corpus (an empty field for a row without one,
      which the scan rejects before counting). */
  function LabelColumn(rows: seq<string>): (column: seq<string>)
    ensures |column| == |rows|
    ensures forall i :: 0 <= i < |rows| && HasLabelField(rows[i]) ==> column[i] == LabelFieldOf(rows[i])
  {
    seq(|rows|, i requires 0 <= i < |rows| => if HasLabelField(rows[i]) then LabelFieldOf(rows[i]) else "")
  }

  /** `label.split('|')`: the labels of one label field. */
  function LabelFields(field: string): seq<string>
  {
    Split(field, LabelSeparator)
  }

  /** The token counter of a corpus: every token of every segmented text,
      counted with repetition. */
  function CorpusTokens(rows: seq<string>, segment: string -> seq<string>): multiset<string>
  {
    Tally(TextColumn(rows), segment)
  }

  /** The per-row token counts of a corpus, from the untruncated texts. */
  function SegmentLengths(rows: seq<string>, segment: string -> seq<string>): (lengths: seq<int>)
    ensures |lengths| == |rows|
  {
    seq(|rows|, i requires 0 <= i < |rows| => |segment(TextOf(rows[i]))|)
  }

  /** The label counter of a corpus: every `|` field of every label field,
      counted with repetition, the empty field included. */
  function CorpusLabels(rows: seq<string>): multiset<string>
  {
    Tally(LabelColumn(rows), LabelFields)
  }

  /** The labels that get an id: the non-empty ones the corpus holds. */
  function KnownLabels(rows: seq<string>): set<string>
  {
    set l | l in CorpusLabels(rows) && l != ""
  }

  /** A token is counted exactly when some row's segmented text holds it. */
  lemma CorpusTokensHold(rows: seq<string>, segment: string -> seq<string>, token: string)
    ensures token in CorpusTokens(rows, segment) <==>
            exists i :: 0 <= i < |rows| && token in segment(TextOf(rows[i]))
  {
    TallyHolds(TextColumn(rows), segment, token);
  }

  /** A label is counted exactly when some row's label field holds it as a
      `|` field. */
  lemma CorpusLabelsHold(rows: seq<string>, l: string)
    requires AllHaveLabelField(rows)
    ensures l in CorpusLabels(rows) <==> exists i :: 0 <= i < |rows| && l in LabelFields(LabelFieldOf(rows[i]))
  {
    TallyHolds(LabelColumn(rows), LabelFields, l);
  }

  /** Counting one more row adds its tokens and its token count. */
  lemma CorpusTokensStep(rows: seq<string>, segment: string -> seq<string>, i: nat)
    requires i < |rows|
    ensures CorpusTokens(rows[..i + 1], segment) == CorpusTokens(rows[..i], segment) + multiset(segment(TextOf(rows[i])))
    ensures SegmentLengths(rows[..i + 1], segment) == SegmentLengths(rows[..i], segment) + [|segment(TextOf(rows[i]))|]
  {
    assert TextColumn(rows[..i + 1]) == TextColumn(rows)[..i + 1];
    assert TextColumn(rows[..i]) == TextColumn(rows)[..i];
    TallyStep(TextColumn(rows), segment, i);
  }

  /** Counting one more row adds the `|` fields of its label field. */
  lemma CorpusLabelsStep(rows: seq<string>, i: nat)
    requires i < |rows| && HasLabelField(rows[i])
    ensures CorpusLabels(rows[..i + 1]) == CorpusLabels(rows[..i]) + multiset(LabelFields(LabelFieldOf(rows[i])))
  {
    assert LabelColumn(rows[..i + 1]) == LabelColumn(rows)[..i + 1];
    assert LabelColumn(rows[..i]) == LabelColumn(rows)[..i];
    TallyStep(LabelColumn(rows), LabelFields, i);
  }

  // ---------------------------------------------------------------------------
  // the one-pass scan of the supervised constructor
  // ---------------------------------------------------------------------------

  /** What one pass over the corpus accumulates. */
  datatype Scan = Scan(tokens: multiset<string>, labels: multiset<string>, textLengths: seq<int>)

  /** The constructor's loop: splits every row into text and label (failing
      on the first row without a label column), and only on the sides being
      built counts tokens, records token counts and counts label fields. */
  method ScanCorpus(rows: seq<string>, segment: string -> seq<string>, countTokens: bool, countLabels: bool)
    returns (r: Result<Scan, DatasetError>)
    ensures r.Success? <==> AllHaveLabelField(rows)
    ensures r.Failure? ==> exists i :: 0 <= i < |rows| && r.error == NotEnoughValues(i)
                            && !HasLabelField(rows[i]) && AllHaveLabelField(rows[..i])
    ensures r.Success? ==> r.value.tokens == (if countTokens then CorpusTokens(rows, segment) else multiset{})
    ensures r.Success? ==> r.value.textLengths == (if countTokens then SegmentLengths(rows, segment) else [])
    ensures r.Success? ==> r.value.labels == (if countLabels then CorpusLabels(rows) else multiset{})
  {
    var tokens: multiset<string> := multiset{};
    var labels: multiset<string> := multiset{};
    var lengths: seq<int> := [];
    var i := 0;
    while i < |rows|
      invariant 0 <= i <= |rows|
      invariant AllHaveLabelField(rows[..i])
      invariant tokens == (if countTokens then CorpusTokens(rows[..i], segment) else multiset{})
      invariant lengths == (if countTokens then SegmentLengths(rows[..i], segment) else [])
      invariant labels == (if countLabels then CorpusLabels(rows[..i]) else multiset{})
    {
      if !HasLabelField(rows[i]) {
        return Failure(NotEnoughValues(i));
      }
      var text, field := TextOf(rows[i]), LabelFieldOf(rows[i]);
      assert AllHaveLabelField(rows[..i + 1]) by {
        AllHaveStep(rows, i);
      }
      if countTokens {
        var words := segment(text);
        assert tokens + multiset(words) == CorpusTokens(rows[..i + 1], segment)
               && lengths + [|words|] == SegmentLengths(rows[..i + 1], segment) by {
          CorpusTokensStep(rows, segment, i);
        }
        lengths := lengths + [|words|];
        tokens := tokens + multiset(words);
      }
      if countLabels {
        assert labels + multiset(LabelFields(field)) == CorpusLabels(rows[..i + 1]) by {
          CorpusLabelsStep(rows, i);
        }
        labels := labels + multiset(LabelFields(field));
      }
      i := i + 1;
    }
    assert rows[..i] == rows;
    return Success(Scan(tokens, labels, lengths));
  }

  // ---------------------------------------------------------------------------
  // NLPDataset
  // ---------------------------------------------------------------------------

  /** An unsupervised dataset: rows whose first column is text. */
  class NlpDataset {
    const rows: seq<string>
    const segment: string -> seq<string>
    const maxLength: Option<int>
    const vocab: Vocab
    var textLengths: seq<int>

    /** Scans the corpus once; only when no vocabulary is given does it
        segment the texts, record their token counts and count the tokens,
        and then the vocabulary is the one built from those counts. */
    constructor (rows: seq<string>, vocab: Option<Vocab>, segmenter: Option<string -> seq<string>>,
                 maxLength: Option<int>, buildVocab: multiset<string> -> Vocab)
      ensures this.rows == rows && this.maxLength == maxLength
      ensures this.segment == (if segmenter.Some? then segmenter.value else Chars)
      ensures vocab.Some? ==> this.vocab == vocab.value && textLengths == []
      ensures vocab.None? ==> this.vocab == buildVocab(CorpusTokens(rows, this.segment))
                              && textLengths == SegmentLengths(rows, this.segment)
    {
      var segment: string -> seq<string> := if segmenter.Some? then segmenter.value else Chars;
      var tokens: multiset<string> := multiset{};
      var lengths: seq<int> := [];
      var i := 0;
      while i < |rows|
        invariant 0 <= i <= |rows|
        invariant tokens == (if vocab.None? then CorpusTokens(rows[..i], segment) else multiset{})
        invariant lengths == (if vocab.None? then SegmentLengths(rows[..i], segment) else [])
      {
        var text := Split(rows[i], FieldSeparator)[0];
        CorpusTokensStep(rows, segment, i);
        if vocab.None? {
          var words := segment(text);
          lengths := lengths + [|words|];
          tokens := tokens + multiset(words);
        }
        i := i + 1;
      }
      assert rows[..i] == rows;
      this.rows := rows;
      this.segment := segment;
      this.maxLength := maxLength;
      this.vocab := if vocab.None? then buildVocab(tokens) else vocab.value;
      textLengths := lengths;
    }

    /** `self[idx]`: the encoded text of row `idx`, cut at `maxLength`. */
    function Item(idx: int): (ids: seq<int>)
      requires 0 <= idx < |rows|
      ensures |ids| == |segment(Prefix(TextOf(rows[idx]), maxLength))|
    {
      PreprocessText(vocab, segment, maxLength, TextOf(rows[idx]))
    }

    /** `text_lengths`: the cached counts while there is one per row,
        otherwise the lengths of the encoded rows, which replace the cache. */
    method TextLengths() returns (lengths: seq<int>)
      modifies this
      ensures lengths == textLengths && |lengths| == |rows|
      ensures |old(textLengths)| == |rows| ==> textLengths == old(textLengths)
      ensures |old(textLengths)| != |rows| ==> forall i :: 0 <= i < |rows| ==> textLengths[i] == |Item(i)|
    {
      if |textLengths| != |rows| {
        textLengths := seq(|rows|, i requires 0 <= i < |rows| => |Item(i)|);
      }
      lengths := textLengths;
    }
  }

  /** Where the text lengths come from matters: the scan counts the tokens
      of the whole text, the recomputation those of the text cut at
      `maxLength`. With the character segmenter the two differ on every text
      longer than `maxLength`. */
  lemma ScanAndRecomputedLengthsDiffer(vocab: Vocab, maxLength: nat, text: string)
    requires |text| > maxLength
    ensures |Chars(text)| == |text|
    ensures |PreprocessText(vocab, Chars, Some(maxLength), text)| == maxLength
  {
    PreprocessCharsLength(vocab, maxLength, text);
  }

  // ---------------------------------------------------------------------------
  // SupervisedNLPDataset, ClassifyDataset, SequenceTagDataset
  // ---------------------------------------------------------------------------

  /** Which `preprocess_label` a supervised dataset uses: the plain id list
      of the base class, the multi-hot vector of classification, or the
      truncated id list of sequence tagging. */
  datatype Task = Plain | Classify | SequenceTag

  /** `label2idx` as built from a corpus: its keys are the given labels, its
      ids are exactly `0..K-1`, and they follow the string order. */
  ghost predicate IsSortedIndexOf(label2idx: map<string, int>, labels: set<string>)
  {
    && label2idx.Keys == labels
    && (forall l :: l in label2idx ==> 0 <= label2idx[l] < |label2idx|)
    && Contiguous(label2idx)
    && (forall a, b :: a in label2idx && b in label2idx ==> (label2idx[a] < label2idx[b] <==> Less(a, b)))
  }

  class SupervisedDataset {
    const rows: seq<string>
    const segment: string -> seq<string>
    const maxLength: Option<int>
    const vocab: Vocab
    const label2idx: map<string, int>
    const idx2label: map<int, string>
    const task: Task
    /** The binarizer's classes (classification only): `idx2label[0..K-1]`. */
    const classes: seq<string>
    var textLengths: seq<int>

    /** Every row has a label column, `idx2label` is an inverse of
        `label2idx`, and a classification dataset has one class per id. */
    predicate Valid()
    {
      && AllHaveLabelField(rows)
      && idx2label.Keys == label2idx.Values
      && (forall i :: i in idx2label ==> idx2label[i] in label2idx && label2idx[idx2label[i]] == i)
      && (task == Classify ==>
            && |classes| == |label2idx|
            && forall i :: 0 <= i < |classes| ==> i in idx2label && classes[i] == idx2label[i])
    }

    constructor Init(rows: seq<string>, segment: string -> seq<string>, maxLength: Option<int>, vocab: Vocab,
                     label2idx: map<string, int>, idx2label: map<int, string>, task: Task, classes: seq<string>,
                     textLengths: seq<int>)
      ensures this.rows == rows && this.segment == segment && this.maxLength == maxLength
      ensures this.vocab == vocab && this.label2idx == label2idx && this.idx2label == idx2label
      ensures this.task == task && this.classes == classes && this.textLengths == textLengths
    {
      this.rows := rows;
      this.segment := segment;
      this.maxLength := maxLength;
      this.vocab := vocab;
      this.label2idx := label2idx;
      this.idx2label := idx2label;
      this.task := task;
      this.classes := classes;
      this.textLengths := textLengths;
    }

    /** The supervised constructor (and, for classification, the class list
        of its binarizer). It fails on the first row without a label column,
        and a classification dataset fails when some id in `0..K-1` has no
        label. A given vocabulary or `label2idx` is used unchanged and nothing
        is counted for it; otherwise the vocabulary is built from the token
        counts and `label2idx` numbers the distinct non-empty labels in
        string order. */
    static method Create(rows: seq<string>, vocab: Option<Vocab>, label2idx: Option<map<string, int>>,
                         segmenter: Option<string -> seq<string>>, maxLength: Option<int>, task: Task,
                         buildVocab: multiset<string> -> Vocab)
      returns (r: Result<SupervisedDataset, DatasetError>)
      ensures r.Success? <==>
                AllHaveLabelField(rows) && (task == Classify && label2idx.Some? ==> Contiguous(label2idx.value))
      ensures !AllHaveLabelField(rows) ==>
                exists i :: 0 <= i < |rows| && r == Failure(NotEnoughValues(i))
                            && !HasLabelField(rows[i]) && AllHaveLabelField(rows[..i])
      ensures r.Success? ==> fresh(r.value) && r.value.Valid()
      ensures r.Success? ==> r.value.rows == rows && r.value.maxLength == maxLength && r.value.task == task
      ensures r.Success? ==> r.value.segment == if segmenter.Some? then segmenter.value else Chars
      ensures r.Success? && vocab.Some? ==> r.value.vocab == vocab.value && r.value.textLengths == []
      ensures r.Success? && vocab.None? ==>
                r.value.vocab == buildVocab(CorpusTokens(rows, r.value.segment))
                && r.value.textLengths == SegmentLengths(rows, r.value.segment)
      ensures r.Success? && label2idx.Some? ==> r.value.label2idx == label2idx.value
      ensures r.Success? && label2idx.None? ==> IsSortedIndexOf(r.value.label2idx, KnownLabels(rows))
    {
      var segment: string -> seq<string> := if segmenter.Some? then segmenter.value else Chars;
      var scan := ScanCorpus(rows, segment, vocab.None?, label2idx.None?);
      if scan.Failure? {
        return Failure(scan.error);
      }
      var index: map<string, int>;
      if label2idx.None? {
        index := BuildLabelIndex(scan.value.labels);
      } else {
        index := label2idx.value;
      }
      var inverse := Invert(index);
      var classes: seq<string> := [];
      if task == Classify {
        var found := ClassList(inverse, |index|);
        if found.Failure? {
          return Failure(Lookup(found.error));
        }
        classes := found.value;
      }
      var d := new SupervisedDataset.Init(rows, segment, maxLength,
                                          if vocab.None? then buildVocab(scan.value.tokens) else vocab.value,
                                          index, inverse, task, classes, scan.value.textLengths);
      return Success(d);
    }

    /** `preprocess_label` of the dataset's task. The id lists hold only ids
        of the index and fail exactly when a field (of the first `maxLength`
        for tagging) has no id; the multi-hot vector never fails and has one
        0/1 entry per class. */
    function EncodeLabel(field: string): (r: Result<seq<int>, EncodingError>)
      requires Valid()
      ensures task == Classify ==> r.Success? && |r.value| == |label2idx|
                                   && forall i :: 0 <= i < |r.value| ==> r.value[i] in {0, 1}
      ensures task == Plain ==>
                (r.Success? <==> forall l :: l in Split(field, LabelSeparator) ==> l in label2idx)
      ensures task == SequenceTag ==>
                (r.Success? <==> forall l :: l in Prefix(Split(field, LabelSeparator), maxLength) ==> l in label2idx)
      ensures task != Classify && r.Success? ==> forall i :: 0 <= i < |r.value| ==> r.value[i] in idx2label
    {
      match task
      case Plain => PreprocessLabel(label2idx, field)
      case SequenceTag => PreprocessTagLabel(label2idx, maxLength, field)
      case Classify => Success(PreprocessClassLabel(classes, field))
    }

    /** `self[idx]`: the encoded text of row `idx` (cut at `maxLength`) and
        its encoded label, computed afresh on every access. */
    function GetItem(idx: int): (r: Result<(seq<int>, seq<int>), EncodingError>)
      requires Valid() && 0 <= idx < |rows|
      ensures r.Success? <==> EncodeLabel(LabelFieldOf(rows[idx])).Success?
      ensures r.Success? ==> r.value.0 == PreprocessText(vocab, segment, maxLength, TextOf(rows[idx]))
      ensures r.Success? ==> |r.value.0| == |segment(Prefix(TextOf(rows[idx]), maxLength))|
      ensures r.Success? ==> r.value.1 == EncodeLabel(LabelFieldOf(rows[idx])).value
    {
      var text := PreprocessText(vocab, segment, maxLength, TextOf(rows[idx]));
      var encoded := EncodeLabel(LabelFieldOf(rows[idx]));
      if encoded.Failure? then Failure(encoded.error) else Success((text, encoded.value))
    }

    /** `idx2labels` of classification (unknown ids dropped) and of sequence
        tagging (unknown ids become the outside tag). */
    function IdsToLabels(ids: seq<int>): (labels: seq<string>)
      requires task != Plain
      ensures task == SequenceTag ==> |labels| == |ids|
      ensures task == Classify ==> |labels| <= |ids|
    {
      if task == Classify then ClassIdsToLabels(idx2label, ids) else TagIdsToLabels(idx2label, ids)
    }

    /** Two datasets of the same kind that share a one-to-one `label2idx`
        encode every label field alike, whatever corpus each was built
        over. */
    static lemma SharedIndexEncodesAlike(d1: SupervisedDataset, d2: SupervisedDataset, field: string)
      requires d1.Valid() && d2.Valid()
      requires d1.label2idx == d2.label2idx && Injective(d1.label2idx)
      requires d1.task == d2.task && d1.maxLength == d2.maxLength
      ensures d1.EncodeLabel(field) == d2.EncodeLabel(field)
    {
      if d1.task == Classify {
        forall i | 0 <= i < |d1.classes| ensures d1.classes[i] == d2.classes[i] {
          assert d1.label2idx[d1.classes[i]] == i == d2.label2idx[d2.classes[i]];
        }
        assert d1.classes == d2.classes;
      }
    }

    /** `text_lengths`: the cached counts while there is one per row;
        otherwise the lengths of the encoded texts of all rows, which replace
        the cache, unless encoding some row fails, which leaves the cache as
        it was. */
    method TextLengths() returns (r: Result<seq<int>, DatasetError>)
      requires Valid()
      modifies this
      ensures |old(textLengths)| == |rows| ==> r == Success(old(textLengths)) && textLengths == old(textLengths)
      ensures |old(textLengths)| != |rows| ==>
                (r.Success? <==> forall i :: 0 <= i < |rows| ==> GetItem(i).Success?)
      ensures |old(textLengths)| != |rows| && r.Success? ==>
                textLengths == r.value && |r.value| == |rows|
                && forall i :: 0 <= i < |rows| ==> r.value[i] == |GetItem(i).value.0|
      ensures r.Failure? ==> textLengths == old(textLengths)
    {
      if |textLengths| == |rows| {
        return Success(textLengths);
      }
      var lengths: seq<int> := [];
      var i := 0;
      while i < |rows|
        invariant 0 <= i <= |rows|
        invariant |lengths| == i
        invariant forall j :: 0 <= j < i ==> GetItem(j).Success? && lengths[j] == |GetItem(j).value.0|
      {
        var item := GetItem(i);
        if item.Failure? {
          return Failure(Lookup(item.error));
        }
        lengths := lengths + [|item.value.0|];
        i := i + 1;
      }
      textLengths := lengths;
      return Success(lengths);
    }
  }
}
