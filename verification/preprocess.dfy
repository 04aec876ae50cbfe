/**
 Record normalisation of the Kisan Call Centre corpus (`preprocess_kcc`).
 A row of the corpus table becomes a document only when both its query text
 and its answer text are present; the document's id is the row's original
 position rendered in decimal, so ids follow the row order and may skip
 positions whose rows were dropped.
 */
module Preprocess {
  import opened Wrappers
  import opened Text

  /**
   One corpus row. `query` and `answer` are `None` when the table cell is
   missing; the metadata cells are given as the text Python renders for them
   (a missing cell renders as "nan").
   */
  datatype Row = Row(query: Option<string>, answer: Option<string>,
                     state: string, district: string, crop: string)

  /** One normalised document: `{"id": ..., "content": ...}`. */
  datatype Doc = Doc(id: string, content: string)

  /** The rows that survive dropping missing `QueryText` or `KccAns`. */
  predicate Complete(row: Row) {
    row.query.Some? && row.answer.Some?
  }

  /** The fixed three-line content template of a document. */
  function Content(row: Row): (c: string)
    requires Complete(row)
    ensures "Query: " + row.query.value + "\nAnswer: " <= c
    ensures |c| > 0
  {
    "Query: " + row.query.value + "\nAnswer: " + row.answer.value + "\n"
    + "Meta: State=" + row.state + ", District=" + row.district + ", Crop=" + row.crop
  }

  /** The document built from the row at position `i`. */
  function DocAt(rows: seq<Row>, i: nat): Doc
    requires i < |rows| && Complete(rows[i])
  {
    Doc(Decimal(i), Content(rows[i]))
  }

  /**
   The positions of the complete rows, in increasing order: exactly the
   positions that produce a document.
   */
  function Kept(rows: seq<Row>): (ks: seq<nat>)
    ensures forall k :: 0 <= k < |ks| ==> ks[k] < |rows| && Complete(rows[ks[k]])
    ensures forall i :: 0 <= i < |rows| && Complete(rows[i]) ==> i in ks
    ensures forall a, b :: 0 <= a < b < |ks| ==> ks[a] < ks[b]
    decreases |rows|
  {
    if |rows| == 0 then []
    else
      var front := Kept(rows[..|rows| - 1]);
      if Complete(rows[|rows| - 1]) then front + [|rows| - 1] else front
  }

  /**
   `preprocess_kcc` without the file I/O: one document per complete row, in
   row order, each carrying its row's original position as id.
   */
  method PreprocessKcc(rows: seq<Row>) returns (docs: seq<Doc>)
    ensures |docs| == |Kept(rows)|
    ensures forall k :: 0 <= k < |docs| ==> docs[k] == DocAt(rows, Kept(rows)[k])
  {
    docs := [];
    for i := 0 to |rows|
      invariant |docs| == |Kept(rows[..i])|
      invariant forall k :: 0 <= k < |docs| ==> docs[k] == DocAt(rows, Kept(rows[..i])[k])
    {
      assert rows[..i + 1][..i] == rows[..i];
      if Complete(rows[i]) {
        docs := docs + [DocAt(rows, i)];
      }
    }
    assert rows[..|rows|] == rows;
  }

  /** A row produces a document if and only if both its query and its answer are present. */
  lemma RowProducesDocIff(rows: seq<Row>, i: nat)
    requires i < |rows|
    ensures i in Kept(rows) <==> Complete(rows[i])
  {
  }

  /**
   Document ids are pairwise distinct, and the id of every document reads
   back as the position of a complete row whose content it carries.
   */
  lemma DocIdsIdentifyRows(rows: seq<Row>, docs: seq<Doc>, a: nat, b: nat)
    requires |docs| == |Kept(rows)|
    requires forall k :: 0 <= k < |docs| ==> docs[k] == DocAt(rows, Kept(rows)[k])
    requires a < b < |docs|
    ensures docs[a].id != docs[b].id
    ensures docs[a].id == Decimal(Kept(rows)[a]) && docs[b].id == Decimal(Kept(rows)[b])
    ensures ParseDecimal(docs[a].id) == Kept(rows)[a]
    ensures ParseDecimal(docs[a].id) < ParseDecimal(docs[b].id)
    ensures Complete(rows[ParseDecimal(docs[a].id)])
    ensures docs[a].content == Content(rows[ParseDecimal(docs[a].id)])
  {
    var ks := Kept(rows);
    DecimalRoundTrip(ks[a]);
    DecimalRoundTrip(ks[b]);
    if docs[a].id == docs[b].id {
      DecimalInjective(ks[a], ks[b]);
    }
  }
}
