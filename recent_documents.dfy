/**
 * The recent documents card (src/components/dashboard/recent-documents.tsx):
 * the first five documents, each with its category's label and its size
 * in megabytes, and a message when there are no documents.
 */
module RecentDocuments {
  import opened Wrappers
  import opened Types
  import opened Lists

  /** `file_size / 1024 / 1024`. */
  function SizeInMb(bytes: real): (mb: real)
    ensures mb * 1048576.0 == bytes
  {
    bytes / 1024.0 / 1024.0
  }

  /** The conversion keeps the order of sizes, so a larger file never shows a smaller size. */
  lemma SizeOrder(a: real, b: real)
    ensures SizeInMb(a) <= SizeInMb(b) <==> a <= b
  {
    var x, y := SizeInMb(a), SizeInMb(b);
    assert x * 1048576.0 == a && y * 1048576.0 == b;
  }

  /**
   * `DOCUMENT_CATEGORIES[document.category]`: undefined, which React
   * renders as nothing, for a key outside the table.
   */
  function CategoryLabel(category: string): (caption: Option<string>)
    ensures caption.Some? <==> category in DocumentCategories()
    ensures caption.Some? ==> caption.value == DocumentCategories()[category] && |caption.value| > 0
  {
    if category in DocumentCategories() then Some(DocumentCategories()[category]) else None
  }

  datatype DocumentLine = DocumentLine(document: Document, caption: Option<string>, sizeMb: real)

  datatype View = View(lines: seq<DocumentLine>, emptyMessage: bool)

  function LineFor(d: Document): DocumentLine
  {
    DocumentLine(d, CategoryLabel(d.category), SizeInMb(d.fileSize))
  }

  /** At most the first five documents, in order; the message shows exactly when there are none. */
  function ViewOf(documents: seq<Document>): (v: View)
    ensures |v.lines| <= 5 && |v.lines| <= |documents|
    ensures |documents| >= 5 ==> |v.lines| == 5
    ensures forall i :: 0 <= i < |v.lines| ==> v.lines[i] == LineFor(documents[i])
    ensures v.emptyMessage <==> |documents| == 0
    ensures v.emptyMessage <==> |v.lines| == 0
  {
    var shown := Take(documents, 5);
    View(seq(|shown|, i requires 0 <= i < |shown| => LineFor(shown[i])), |documents| == 0)
  }

  /** Every one of the seven categories shows a label. */
  lemma KnownCategoriesLabelled(d: Document)
    requires d.category in {"will", "power_of_attorney", "investment", "tax", "insurance", "property", "other"}
    ensures LineFor(d).caption.Some?
  {
  }
}
