/** Per-row encoding of a dataset: the text becomes a list of token ids
    through the vocabulary, the label field becomes one of three label
    representations, and ids are decoded back to labels. */
module Encoding {
  import opened Results
  import opened Text

  /** A vocabulary as the dataset code uses it: an id for each known token
      and the id of the unknown token for everything else. How the ids are
      chosen from the token counts is not part of this model. */
  datatype Vocab = Vocab(index: map<string, int>, unknownId: int)

  /** The lookup error the encoders raise (Python's `KeyError`). */
  datatype EncodingError =
    | UnknownLabel(key: string)
    | UnknownId(id: int)

  /** The pipe that separates the labels inside a label field. */
  const LabelSeparator: char := '|'

  /** The tag that sequence tagging decodes unknown ids to. */
  const OutsideTag: string := "O"

  // ---------------------------------------------------------------------------
  // text
  // ---------------------------------------------------------------------------

  /** `vocab[tokens]`: one id per token, the unknown id for tokens the
      vocabulary does not hold. */
  function LookupTokens(vocab: Vocab, tokens: seq<string>): (ids: seq<int>)
    ensures |ids| == |tokens|
    ensures forall i :: 0 <= i < |tokens| && tokens[i] in vocab.index ==> ids[i] == vocab.index[tokens[i]]
    ensures forall i :: 0 <= i < |tokens| && tokens[i] !in vocab.index ==> ids[i] == vocab.unknownId
    decreases |tokens|
  {
    if tokens == [] then []
    else
      var id := if tokens[0] in vocab.index then vocab.index[tokens[0]] else vocab.unknownId;
      [id] + LookupTokens(vocab, tokens[1..])
  }

  /** `preprocess_text`: segments only the first `maxLength` characters and
      looks the tokens up. */
  function PreprocessText(vocab: Vocab, segment: string -> seq<string>, maxLength: Option<int>, text: string): (ids: seq<int>)
    ensures |ids| == |segment(Prefix(text, maxLength))|
  {
    LookupTokens(vocab, segment(Prefix(text, maxLength)))
  }

  /** With the default character segmenter the encoded text is as long as the
      text, cut at `maxLength`, and each id is the id of that character. */
  lemma PreprocessCharsLength(vocab: Vocab, maxLength: nat, text: string)
    ensures var ids := PreprocessText(vocab, Chars, Some(maxLength), text);
      && |ids| == Min(|text|, maxLength)
      && forall i :: 0 <= i < |ids| && [text[i]] in vocab.index ==> ids[i] == vocab.index[[text[i]]]
  {
    var p := Prefix(text, Some(maxLength));
    assert forall i :: 0 <= i < |p| ==> Chars(p)[i] == [text[i]];
  }

  // ---------------------------------------------------------------------------
  // labels as a list of ids
  // ---------------------------------------------------------------------------

  /** `[label2idx[l] for l in fields]`: fails on the first field that is not
      a key, otherwise one id per field in order. */
  function LabelIds(label2idx: map<string, int>, fields: seq<string>): (r: Result<seq<int>, EncodingError>)
    ensures r.Success? <==> forall i :: 0 <= i < |fields| ==> fields[i] in label2idx
    ensures r.Success? ==> |r.value| == |fields|
    ensures r.Success? ==> forall i :: 0 <= i < |fields| ==> r.value[i] == label2idx[fields[i]]
    ensures r.Failure? ==> exists k :: 0 <= k < |fields| && r.error == UnknownLabel(fields[k])
                            && fields[k] !in label2idx
                            && forall i :: 0 <= i < k ==> fields[i] in label2idx
    decreases |fields|
  {
    if fields == [] then Success([])
    else if fields[0] !in label2idx then Failure(UnknownLabel(fields[0]))
    else
      var rest := LabelIds(label2idx, fields[1..]);
      if rest.Failure? then
        var k :| 0 <= k < |fields[1..]| && rest.error == UnknownLabel(fields[1..][k])
                 && fields[1..][k] !in label2idx
                 && forall i :: 0 <= i < k ==> fields[1..][i] in label2idx;
        assert fields[k + 1] == fields[1..][k];
        Failure(rest.error)
      else
        Success([label2idx[fields[0]]] + rest.value)
  }

  /** The label policy of a plain supervised dataset: one id per `|` field. */
  function PreprocessLabel(label2idx: map<string, int>, field: string): (r: Result<seq<int>, EncodingError>)
    ensures r.Success? ==> |r.value| == |Split(field, LabelSeparator)|
  {
    LabelIds(label2idx, Split(field, LabelSeparator))
  }

  /** The label policy of sequence tagging: one id per `|` field, only the
      first `maxLength` fields. */
  function PreprocessTagLabel(label2idx: map<string, int>, maxLength: Option<int>, field: string): (r: Result<seq<int>, EncodingError>)
    ensures r.Success? && maxLength.Some? && maxLength.value >= 0 ==> |r.value| <= maxLength.value
  {
    LabelIds(label2idx, Prefix(Split(field, LabelSeparator), maxLength))
  }

  /** An empty label field never encodes when the empty label has no id,
      which is the case for every index the dataset builds itself. */
  lemma EmptyLabelFails(label2idx: map<string, int>)
    requires "" !in label2idx
    ensures PreprocessLabel(label2idx, "") == Failure(UnknownLabel(""))
  {
    assert Split("", LabelSeparator) == [""];
  }

  predicate InverseOf(idx2label: map<int, string>, label2idx: map<string, int>)
  {
    forall l :: l in label2idx ==> label2idx[l] in idx2label && idx2label[label2idx[l]] == l
  }

  /** `[idx2label.get(i, 'O') for i in ids]`: never fails. */
  function TagIdsToLabels(idx2label: map<int, string>, ids: seq<int>): (labels: seq<string>)
    ensures |labels| == |ids|
    ensures forall i :: 0 <= i < |ids| && ids[i] in idx2label ==> labels[i] == idx2label[ids[i]]
    ensures forall i :: 0 <= i < |ids| && ids[i] !in idx2label ==> labels[i] == OutsideTag
    decreases |ids|
  {
    if ids == [] then []
    else [if ids[0] in idx2label then idx2label[ids[0]] else OutsideTag] + TagIdsToLabels(idx2label, ids[1..])
  }

  /** Decoding the ids of a successfully encoded tag field gives the fields
      back, cut at `maxLength`. */
  lemma TagRoundTrip(label2idx: map<string, int>, idx2label: map<int, string>, maxLength: Option<int>, field: string)
    requires InverseOf(idx2label, label2idx)
    requires PreprocessTagLabel(label2idx, maxLength, field).Success?
    ensures TagIdsToLabels(idx2label, PreprocessTagLabel(label2idx, maxLength, field).value)
            == Prefix(Split(field, LabelSeparator), maxLength)
  {
  }

  /** The same for the plain policy, decoded through the inverse map. */
  lemma PlainRoundTrip(label2idx: map<string, int>, idx2label: map<int, string>, field: string)
    requires InverseOf(idx2label, label2idx)
    requires PreprocessLabel(label2idx, field).Success?
    ensures var ids := PreprocessLabel(label2idx, field).value;
      forall i :: 0 <= i < |ids| ==> ids[i] in idx2label && idx2label[ids[i]] == Split(field, LabelSeparator)[i]
  {
  }

  // ---------------------------------------------------------------------------
  // labels as a multi-hot vector
  // ---------------------------------------------------------------------------

  /** `[idx2label[i] for i in range(k)]`, the class list of the binarizer:
      fails on the first id in `0..k-1` that has no label. */
  function ClassList(idx2label: map<int, string>, k: nat): (r: Result<seq<string>, EncodingError>)
    ensures r.Success? <==> forall i :: 0 <= i < k ==> i in idx2label
    ensures r.Success? ==> |r.value| == k && forall i :: 0 <= i < k ==> r.value[i] == idx2label[i]
    ensures r.Failure? ==> exists i :: 0 <= i < k && r.error == UnknownId(i) && i !in idx2label
    decreases k
  {
    if k == 0 then Success([])
    else
      var front := ClassList(idx2label, k - 1);
      if front.Failure? then front
      else if k - 1 !in idx2label then Failure(UnknownId(k - 1))
      else Success(front.value + [idx2label[k - 1]])
  }

  /** The binarizer's multi-hot row: entry `i` is 1 when class `i` is among
      the fields and 0 otherwise; fields that are not classes are ignored. */
  function MultiHot(classes: seq<string>, fields: seq<string>): (v: seq<int>)
    ensures |v| == |classes|
    ensures forall i :: 0 <= i < |classes| ==> (v[i] == 1 <==> classes[i] in fields)
    ensures forall i :: 0 <= i < |classes| ==> (v[i] == 0 <==> classes[i] !in fields)
    decreases |classes|
  {
    if classes == [] then []
    else [if classes[0] in fields then 1 else 0] + MultiHot(classes[1..], fields)
  }

  /** The label policy of classification. */
  function PreprocessClassLabel(classes: seq<string>, field: string): (v: seq<int>)
    ensures |v| == |classes|
  {
    MultiHot(classes, Split(field, LabelSeparator))
  }

  function Elements<T>(s: seq<T>): set<T>
  {
    set x | x in s
  }

  /** The multi-hot vector depends only on which labels occur: their order
      and repetition do not matter ("1|2", "2|1" and "2|1|2" encode alike). */
  lemma {:induction false} MultiHotIgnoresOrder(classes: seq<string>, a: seq<string>, b: seq<string>)
    requires Elements(a) == Elements(b)
    ensures MultiHot(classes, a) == MultiHot(classes, b)
  {
    var va, vb := MultiHot(classes, a), MultiHot(classes, b);
    forall i | 0 <= i < |classes| ensures va[i] == vb[i] {
      assert classes[i] in a <==> classes[i] in Elements(a);
      assert classes[i] in b <==> classes[i] in Elements(b);
    }
  }

  /** `[idx2label[i] for i in ids if i in idx2label]`: unknown ids are
      dropped. */
  function ClassIdsToLabels(idx2label: map<int, string>, ids: seq<int>): (labels: seq<string>)
    ensures |labels| <= |ids|
    ensures forall l :: l in labels <==> exists i :: 0 <= i < |ids| && ids[i] in idx2label && idx2label[ids[i]] == l
    decreases |ids|
  {
    if ids == [] then []
    else
      var rest := ClassIdsToLabels(idx2label, ids[1..]);
      var r := if ids[0] in idx2label then [idx2label[ids[0]]] + rest else rest;
      assert forall l :: l in r <==> exists i :: 0 <= i < |ids| && ids[i] in idx2label && idx2label[ids[i]] == l by {
        forall l | l in r ensures exists i :: 0 <= i < |ids| && ids[i] in idx2label && idx2label[ids[i]] == l {
          if l !in rest {
            assert ids[0] in idx2label && idx2label[ids[0]] == l;
          } else {
            var j :| 0 <= j < |ids[1..]| && ids[1..][j] in idx2label && idx2label[ids[1..][j]] == l;
            assert ids[j + 1] == ids[1..][j];
          }
        }
        forall l | exists i :: 0 <= i < |ids| && ids[i] in idx2label && idx2label[ids[i]] == l ensures l in r {
          var i :| 0 <= i < |ids| && ids[i] in idx2label && idx2label[ids[i]] == l;
          if i > 0 {
            assert ids[1..][i - 1] == ids[i];
          }
        }
      }
      r
  }

  /** The positions that hold a 1, in increasing order. */
  function HotIds(v: seq<int>): (ids: seq<int>)
    ensures forall i :: i in ids <==> 0 <= i < |v| && v[i] == 1
    decreases |v|
  {
    if v == [] then []
    else
      var front := HotIds(v[..|v| - 1]);
      var r := if v[|v| - 1] == 1 then front + [|v| - 1] else front;
      assert forall i :: 0 <= i < |v| - 1 ==> v[..|v| - 1][i] == v[i];
      r
  }

  /** Decoding the hot positions of a classification vector gives exactly
      the labels of the field that are classes. */
  lemma ClassRoundTrip(idx2label: map<int, string>, classes: seq<string>, field: string)
    requires forall i :: 0 <= i < |classes| ==> i in idx2label && idx2label[i] == classes[i]
    requires forall i :: i in idx2label ==> 0 <= i < |classes|
    ensures Elements(ClassIdsToLabels(idx2label, HotIds(PreprocessClassLabel(classes, field))))
            == Elements(Split(field, LabelSeparator)) * Elements(classes)
  {
    var fields := Split(field, LabelSeparator);
    var v := PreprocessClassLabel(classes, field);
    var ids := HotIds(v);
    var decoded := ClassIdsToLabels(idx2label, ids);
    forall l ensures l in Elements(decoded) <==> l in Elements(fields) * Elements(classes) {
      if l in decoded {
        var i :| 0 <= i < |ids| && ids[i] in idx2label && idx2label[ids[i]] == l;
        assert ids[i] in ids;
        assert v[ids[i]] == 1;
        assert classes[ids[i]] == l;
      }
      if l in fields && l in classes {
        var c :| 0 <= c < |classes| && classes[c] == l;
        assert v[c] == 1;
        assert c in ids;
        var i :| 0 <= i < |ids| && ids[i] == c;
      }
    }
  }
}
