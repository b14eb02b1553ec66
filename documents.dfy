/** langchain's `Document` record and the newline-join of page contents used for prompts and display. */
module Documents {
  import opened PyStr

  /** A `Document`: its `page_content` and its string-valued `metadata`. */
  datatype Document = Document(pageContent: string, metadata: map<string, string>)

  /** `[doc.page_content for doc in docs]`. */
  function Contents(docs: seq<Document>): (r: seq<string>)
    ensures |r| == |docs|
    ensures forall k :: 0 <= k < |docs| ==> r[k] == docs[k].pageContent
  {
    seq(|docs|, k requires 0 <= k < |docs| => docs[k].pageContent)
  }

  /** `"\n".join(doc.page_content for doc in docs)`. */
  function JoinContents(docs: seq<Document>): string
  {
    Join("\n", Contents(docs))
  }

  /**
   * Document `k` sits in the joined text right after the contents of the
   * documents before it and one newline after each of them, and a newline
   * follows it unless it is the last; this holds whatever the contents hold,
   * newlines included.
   */
  lemma JoinContentsPlacement(docs: seq<Document>, k: nat)
    requires k < |docs|
    ensures var page := docs[k].pageContent;
            var off := TotalLength(Contents(docs)[..k]) + k;
            && off + |page| <= |JoinContents(docs)|
            && JoinContents(docs)[off..off + |page|] == page
            && (k < |docs| - 1 ==> off + |page| < |JoinContents(docs)| && JoinContents(docs)[off + |page|] == '\n')
  {
    var page := docs[k].pageContent;
    var off := TotalLength(Contents(docs)[..k]) + k;
    JoinPlacement("\n", Contents(docs), k);
    assert PartOffset("\n", Contents(docs), k) == off;
    if k < |docs| - 1 {
      var end := off + |page|;
      assert JoinContents(docs)[end..end + 1] == "\n";
    }
  }

  /**
   * Splitting the joined text on newlines gives the page contents back, in
   * order, only when none of them holds a newline itself.
   */
  lemma JoinContentsRecoversOrder(docs: seq<Document>)
    requires |docs| > 0
    requires forall k :: 0 <= k < |docs| ==> '\n' !in docs[k].pageContent
    ensures Split(JoinContents(docs), '\n') == Contents(docs)
  {
    SplitJoin(Contents(docs), '\n');
  }
}
