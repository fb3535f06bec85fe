/**
 * The chapter-editing step of the document wizard: the decorated chapter list, the chapter the
 * modals work on, and the replacement of that chapter's content when the Markdown editor is
 * confirmed.
 */
module ChapterEdit {
  import opened Wrappers
  import opened Chapters

  /**
   * `handleContentUpdate`: every item whose `templentChapterId` equals the current chapter's gets
   * the new content; all others are returned as they are.
   */
  function UpdateContent(list: seq<ChapterItem>, current: Option<ChapterItem>, value: string): (r: seq<ChapterItem>)
    ensures |r| == |list|
  {
    seq(|list|, i requires 0 <= i < |list| =>
      if current.Some? && list[i].templentChapterId == current.value.templentChapterId
      then list[i].(templentChapterContent := Some(value))
      else list[i])
  }

  /** Whether the item is the one being edited. */
  predicate IsCurrent(item: ChapterItem, current: Option<ChapterItem>) {
    current.Some? && item.templentChapterId == current.value.templentChapterId
  }

  /**
   * Length and order are kept; a matching item differs from the original only in its content,
   * which becomes `value`; a non-matching item is unchanged.
   */
  lemma UpdateContentEffect(list: seq<ChapterItem>, current: Option<ChapterItem>, value: string)
    ensures var r := UpdateContent(list, current, value);
      && |r| == |list|
      && forall i :: 0 <= i < |list| ==>
           if IsCurrent(list[i], current) then
             r[i].templentChapterContent == Some(value)
             && r[i] == list[i].(templentChapterContent := r[i].templentChapterContent)
           else r[i] == list[i]
  {
  }

  /** With no current chapter nothing changes. */
  lemma NoCurrentNoChange(list: seq<ChapterItem>, value: string)
    ensures UpdateContent(list, None, value) == list
  {
  }

  /** The last edit wins: updating twice is the same as updating with the second value only. */
  lemma LastEditWins(list: seq<ChapterItem>, current: Option<ChapterItem>, v1: string, v2: string)
    ensures UpdateContent(UpdateContent(list, current, v1), current, v2) == UpdateContent(list, current, v2)
  {
  }

  /** Editing content never touches the decoration or any other field. */
  lemma UpdateKeepsDecoration(list: seq<ChapterItem>, current: Option<ChapterItem>, value: string)
    ensures forall i :: 0 <= i < |list| ==>
      UpdateContent(list, current, value)[i].(templentChapterContent := None) == list[i].(templentChapterContent := None)
  {
  }

  /** The state of the chapter-editing component. */
  class ChapterEditPage {
    var chapterList: seq<ChapterItem>
    var currentChapter: Option<ChapterItem>
    var previewVisible: bool
    var aiModalVisible: bool
    var mdModalOpen: bool

    constructor ()
      ensures chapterList == [] && currentChapter == None
      ensures !previewVisible && !aiModalVisible && !mdModalOpen
    {
      chapterList := [];
      currentChapter := None;
      previewVisible, aiModalVisible, mdModalOpen := false, false, false;
    }

    /**
     * The effect's response handler: the chapters are loaded only for a truthy contract id and
     * stored, decorated, only when the response status is 200.
     */
    method LoadChapters(contractBaseId: Option<string>, status: int, data: seq<ChapterItem>)
      modifies this
      ensures chapterList == (if Truthy(contractBaseId) && status == 200 then DecorateChapters(data) else old(chapterList))
      ensures currentChapter == old(currentChapter)
      ensures previewVisible == old(previewVisible) && aiModalVisible == old(aiModalVisible)
      ensures mdModalOpen == old(mdModalOpen)
    {
      if contractBaseId.Some? && contractBaseId.value != "" && status == 200 {
        chapterList := DecorateChapters(data);
      }
    }

    method HandlePreview(chapter: ChapterItem)
      modifies this
      ensures currentChapter == Some(chapter) && previewVisible
      ensures chapterList == old(chapterList) && aiModalVisible == old(aiModalVisible)
      ensures mdModalOpen == old(mdModalOpen)
    {
      currentChapter := Some(chapter);
      previewVisible := true;
    }

    /**
     * The edit button: nothing for a disabled chapter, the AI modal for a chapter that supports
     * AI, the Markdown editor otherwise; the chapter becomes the current one.
     */
    method ClickEdit(chapter: ChapterItem)
      modifies this
      ensures chapter.disabled == Some(true) ==>
        currentChapter == old(currentChapter) && aiModalVisible == old(aiModalVisible) && mdModalOpen == old(mdModalOpen)
      ensures chapter.disabled != Some(true) ==> currentChapter == Some(chapter)
      ensures chapter.disabled != Some(true) && chapter.aiSupport == Some(true) ==>
        aiModalVisible && mdModalOpen == old(mdModalOpen)
      ensures chapter.disabled != Some(true) && chapter.aiSupport != Some(true) ==>
        mdModalOpen && aiModalVisible == old(aiModalVisible)
      ensures chapterList == old(chapterList) && previewVisible == old(previewVisible)
    {
      if chapter.disabled != Some(true) {
        if chapter.aiSupport == Some(true) {
          aiModalVisible := true;
          currentChapter := Some(chapter);
        } else {
          currentChapter := Some(chapter);
          mdModalOpen := true;
        }
      }
    }

    /** `handleContentUpdate`: the list is replaced by its updated copy. */
    method HandleContentUpdate(value: string)
      modifies this
      ensures chapterList == UpdateContent(old(chapterList), currentChapter, value)
      ensures currentChapter == old(currentChapter)
      ensures previewVisible == old(previewVisible) && aiModalVisible == old(aiModalVisible)
      ensures mdModalOpen == old(mdModalOpen)
    {
      chapterList := UpdateContent(chapterList, currentChapter, value);
    }

    /**
     * `handleContentSave`: the whole current list is sent with the contract id, and the wizard's
     * next step is requested only once the save has succeeded (`saved`).
     */
    method HandleContentSave(saved: bool) returns (contractContents: seq<ChapterItem>, callsNext: bool)
      ensures contractContents == chapterList
      ensures callsNext <==> saved
    {
      contractContents := chapterList;
      callsNext := saved;
    }

    /** The Markdown editor's OK: the content is updated and the editor closes. */
    method OnMarkdownOk(value: string)
      modifies this
      ensures chapterList == UpdateContent(old(chapterList), currentChapter, value)
      ensures currentChapter == old(currentChapter) && !mdModalOpen
      ensures previewVisible == old(previewVisible) && aiModalVisible == old(aiModalVisible)
    {
      HandleContentUpdate(value);
      mdModalOpen := false;
    }
  }
}
