/**
 * Chapter records of a procurement document and the decoration both chapter-editing steps apply
 * to the list the backend returns (the same `.map` in both components).
 */
module Chapters {
  import opened Wrappers

  /**
   * A chapter as the backend delivers it, plus the four fields the decoration adds (missing until
   * then). The content may be missing; every reader falls back to `""`.
   */
  datatype ChapterItem = ChapterItem(
    contractBaseId: int,
    id: int,
    templent: string,
    templentChapterContent: Option<string>,
    templentChapterId: int,
    templentChapterName: string,
    aiSupport: Option<bool>,
    disabled: Option<bool>,
    status: Option<string>,
    description: Option<string>)

  const CompletedStatus := "已完成"
  const AiDescription := "支持AI优化和分点编辑"
  const EditorDescription := "通用Markdown编辑器"

  /** The chapter's own fields, with the decoration fields cleared. */
  function Undecorated(item: ChapterItem): ChapterItem {
    item.(aiSupport := None, disabled := None, status := None, description := None)
  }

  /** `[0, 4].includes(index)` */
  predicate AiIndex(index: int) {
    index == 0 || index == 4
  }

  /** The object spread over one item at position `index`. */
  function Decorate(item: ChapterItem, index: int): ChapterItem {
    item.(aiSupport := Some(AiIndex(index)),
          disabled := Some(index == 4),
          status := Some(CompletedStatus),
          description := Some(if AiIndex(index) then AiDescription else EditorDescription))
  }

  /** `res.data.map((item, index) => ({...item, aiSupport, disabled, status, description}))` */
  function DecorateChapters(data: seq<ChapterItem>): (r: seq<ChapterItem>)
    ensures |r| == |data|
  {
    seq(|data|, i requires 0 <= i < |data| => Decorate(data[i], i))
  }

  /**
   * The decoration keeps every original field and sets `aiSupport` true exactly at indices 0 and 4,
   * `disabled` true exactly at index 4, status `'已完成'` everywhere, and the AI description
   * exactly where `aiSupport` is set, the generic-editor description elsewhere.
   */
  lemma DecorationFields(data: seq<ChapterItem>, i: int)
    requires 0 <= i < |data|
    ensures var c := DecorateChapters(data)[i];
      && Undecorated(c) == Undecorated(data[i])
      && (c.aiSupport == Some(true) <==> i == 0 || i == 4)
      && c.aiSupport.Some?
      && (c.disabled == Some(true) <==> i == 4)
      && c.disabled.Some?
      && c.status == Some("已完成")
      && (c.description == Some("支持AI优化和分点编辑") <==> i == 0 || i == 4)
      && (c.description == Some("通用Markdown编辑器") <==> !(i == 0 || i == 4))
  {
  }

  /** Only a chapter that supports AI can be disabled. */
  lemma DisabledImpliesAi(data: seq<ChapterItem>)
    ensures forall i :: 0 <= i < |data| && DecorateChapters(data)[i].disabled == Some(true) ==>
                DecorateChapters(data)[i].aiSupport == Some(true)
  {
  }

  /** Decorating twice is decorating once: the decoration depends on the position only. */
  lemma DecorateIdempotent(data: seq<ChapterItem>)
    ensures DecorateChapters(DecorateChapters(data)) == DecorateChapters(data)
  {
  }

  /** The description depends only on `aiSupport`: two chapters that agree on it agree on the description. */
  lemma DescriptionFollowsAiSupport(data: seq<ChapterItem>)
    ensures forall i, j ::
              0 <= i < |data| && 0 <= j < |data| &&
              DecorateChapters(data)[i].aiSupport == DecorateChapters(data)[j].aiSupport ==>
                DecorateChapters(data)[i].description == DecorateChapters(data)[j].description
  {
  }

  /** How many chapters of a list carry `aiSupport: true`. */
  function CountAi(s: seq<ChapterItem>): nat
    decreases |s|
  {
    if |s| == 0 then 0
    else CountAi(s[..|s| - 1]) + (if s[|s| - 1].aiSupport == Some(true) then 1 else 0)
  }

  /** Decorating a prefix gives the prefix of the decoration. */
  lemma DecoratePrefix(data: seq<ChapterItem>, k: int)
    requires 0 <= k <= |data|
    ensures DecorateChapters(data[..k]) == DecorateChapters(data)[..k]
  {
  }

  /** At most two chapters support AI: none of an empty list, one of up to four, two of five or more. */
  lemma {:induction false} AiCount(data: seq<ChapterItem>)
    ensures CountAi(DecorateChapters(data)) == (if |data| > 4 then 2 else if |data| > 0 then 1 else 0)
    decreases |data|
  {
    if |data| > 0 {
      var n := |data|;
      var r := DecorateChapters(data);
      AiCount(data[..n - 1]);
      DecoratePrefix(data, n - 1);
      assert r[..n - 1] == DecorateChapters(data[..n - 1]);
      assert r[n - 1].aiSupport == Some(AiIndex(n - 1));
    }
  }
}
