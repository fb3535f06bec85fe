/**
 * The chapter-editing step of the category-based wizard: it loads and decorates the chapter list
 * like the document wizard's step, and fills its preview and editor modals from a chapter.
 */
module TableChapterEdit {
  import opened Wrappers
  import opened Chapters

  /** The contract id the effect always requests, whatever the component's `contractBaseId` prop. */
  const RequestedContractBaseId := 122

  const AiModalTitlePrefix := "编辑章节 - "

  /** `aiSupport` is true exactly at indices 0 and 4 of the loaded list. */
  lemma AiSupportAtFirstAndFifth(data: seq<ChapterItem>)
    ensures forall i :: 0 <= i < |data| ==> (DecorateChapters(data)[i].aiSupport == Some(true) <==> i == 0 || i == 4)
  {
  }

  /** `disabled` is true exactly at index 4. */
  lemma DisabledAtFifth(data: seq<ChapterItem>)
    ensures forall i :: 0 <= i < |data| ==> (DecorateChapters(data)[i].disabled == Some(true) <==> i == 4)
  {
  }

  /**
   * The description depends only on whether the index is 0 or 4: chapters at two such indices, or
   * at two other indices, have the same description, and the two kinds differ.
   */
  lemma DescriptionByAiIndex(data: seq<ChapterItem>)
    ensures forall i, j ::
              0 <= i < |data| && 0 <= j < |data| && (AiIndex(i) <==> AiIndex(j)) ==>
                DecorateChapters(data)[i].description == DecorateChapters(data)[j].description
    ensures forall i, j ::
              0 <= i < |data| && 0 <= j < |data| && AiIndex(i) && !AiIndex(j) ==>
                DecorateChapters(data)[i].description != DecorateChapters(data)[j].description
  {
  }

  /** Every loaded chapter keeps its fields and is marked `'已完成'`. */
  lemma StatusCompleted(data: seq<ChapterItem>)
    ensures forall i :: 0 <= i < |data| ==>
      DecorateChapters(data)[i].status == Some("已完成") && Undecorated(DecorateChapters(data)[i]) == Undecorated(data[i])
  {
  }

  /** The state of the component: the list and what its three modals show. */
  class TableChapterEditPage {
    var chapterList: seq<ChapterItem>
    var previewVisible: bool
    var previewContent: string
    var previewTitle: string
    var aiModalVisible: bool
    var aiModalTitle: string
    var mdModalOpen: bool
    var mdValue: string
    var mdTitle: string

    constructor ()
      ensures chapterList == [] && !previewVisible && !aiModalVisible && !mdModalOpen
      ensures previewContent == "" && previewTitle == "" && aiModalTitle == "" && mdValue == "" && mdTitle == ""
    {
      chapterList := [];
      previewVisible, aiModalVisible, mdModalOpen := false, false, false;
      previewContent, previewTitle, aiModalTitle, mdValue, mdTitle := "", "", "", "", "";
    }

    /**
     * The effect's response handler: the request always names contract 122, and the list is
     * replaced, decorated, only when the status is 200. Nothing else changes.
     */
    method LoadChapters(status: int, data: seq<ChapterItem>) returns (requested: int)
      modifies this
      ensures requested == 122
      ensures chapterList == (if status == 200 then DecorateChapters(data) else old(chapterList))
      ensures previewVisible == old(previewVisible) && previewContent == old(previewContent)
      ensures previewTitle == old(previewTitle)
      ensures aiModalVisible == old(aiModalVisible) && aiModalTitle == old(aiModalTitle)
      ensures mdModalOpen == old(mdModalOpen) && mdValue == old(mdValue) && mdTitle == old(mdTitle)
    {
      requested := RequestedContractBaseId;
      if status == 200 {
        chapterList := DecorateChapters(data);
      }
    }

    /** The preview shows the chapter's content and name, `""` when missing. */
    method HandlePreview(chapter: ChapterItem)
      modifies this
      ensures previewVisible
      ensures previewContent == OrElse(chapter.templentChapterContent, "")
      ensures previewTitle == chapter.templentChapterName
      ensures chapterList == old(chapterList)
      ensures aiModalVisible == old(aiModalVisible) && aiModalTitle == old(aiModalTitle)
      ensures mdModalOpen == old(mdModalOpen) && mdValue == old(mdValue) && mdTitle == old(mdTitle)
    {
      previewContent := OrElse(chapter.templentChapterContent, "");
      previewTitle := chapter.templentChapterName;
      previewVisible := true;
    }

    /** The AI modal opens titled after the chapter. */
    method HandleAiEdit(chapter: ChapterItem)
      modifies this
      ensures aiModalVisible && aiModalTitle == AiModalTitlePrefix + chapter.templentChapterName
      ensures chapterList == old(chapterList)
      ensures previewVisible == old(previewVisible) && previewContent == old(previewContent)
      ensures previewTitle == old(previewTitle)
      ensures mdModalOpen == old(mdModalOpen) && mdValue == old(mdValue) && mdTitle == old(mdTitle)
    {
      aiModalTitle := AiModalTitlePrefix + chapter.templentChapterName;
      aiModalVisible := true;
    }

    /** The Markdown editor opens on the chapter's content. */
    method HandleMarkdownEdit(chapter: ChapterItem)
      modifies this
      ensures mdModalOpen && mdTitle == chapter.templentChapterName
      ensures mdValue == OrElse(chapter.templentChapterContent, "")
      ensures chapterList == old(chapterList)
      ensures previewVisible == old(previewVisible) && previewContent == old(previewContent)
      ensures previewTitle == old(previewTitle)
      ensures aiModalVisible == old(aiModalVisible) && aiModalTitle == old(aiModalTitle)
    {
      mdTitle := chapter.templentChapterName;
      mdValue := OrElse(chapter.templentChapterContent, "");
      mdModalOpen := true;
    }

    /**
     * The edit button: nothing for a disabled chapter, the AI modal for a chapter that supports
     * AI, the Markdown editor otherwise.
     */
    method ClickEdit(chapter: ChapterItem)
      modifies this
      ensures chapter.disabled == Some(true) ==>
        aiModalVisible == old(aiModalVisible) && aiModalTitle == old(aiModalTitle)
        && mdModalOpen == old(mdModalOpen) && mdValue == old(mdValue) && mdTitle == old(mdTitle)
      ensures chapter.disabled != Some(true) && chapter.aiSupport == Some(true) ==>
        aiModalVisible && aiModalTitle == AiModalTitlePrefix + chapter.templentChapterName
        && mdModalOpen == old(mdModalOpen) && mdValue == old(mdValue) && mdTitle == old(mdTitle)
      ensures chapter.disabled != Some(true) && chapter.aiSupport != Some(true) ==>
        mdModalOpen && mdValue == OrElse(chapter.templentChapterContent, "") && mdTitle == chapter.templentChapterName
        && aiModalVisible == old(aiModalVisible) && aiModalTitle == old(aiModalTitle)
      ensures chapterList == old(chapterList)
      ensures previewVisible == old(previewVisible) && previewContent == old(previewContent)
      ensures previewTitle == old(previewTitle)
    {
      if chapter.disabled != Some(true) {
        if chapter.aiSupport == Some(true) {
          HandleAiEdit(chapter);
        } else {
          HandleMarkdownEdit(chapter);
        }
      }
    }

    /** Typing in the Markdown editor only changes its value. */
    method OnMarkdownChange(value: string)
      modifies this
      ensures mdValue == value
      ensures chapterList == old(chapterList)
      ensures previewVisible == old(previewVisible) && previewContent == old(previewContent)
      ensures previewTitle == old(previewTitle)
      ensures aiModalVisible == old(aiModalVisible) && aiModalTitle == old(aiModalTitle)
      ensures mdModalOpen == old(mdModalOpen) && mdTitle == old(mdTitle)
    {
      mdValue := value;
    }

    /** The editor's OK: the modal closes and the chapter list is left as it was. */
    method OnMarkdownOk()
      modifies this
      ensures !mdModalOpen
      ensures chapterList == old(chapterList)
      ensures previewVisible == old(previewVisible) && previewContent == old(previewContent)
      ensures previewTitle == old(previewTitle)
      ensures aiModalVisible == old(aiModalVisible) && aiModalTitle == old(aiModalTitle)
      ensures mdValue == old(mdValue) && mdTitle == old(mdTitle)
    {
      mdModalOpen := false;
    }
  }
}
