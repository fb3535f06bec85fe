/**
 * The integration-and-export step: the chapters are put in chapter-id order and joined into one
 * Markdown document, their sizes are listed in two columns, and the document is exported to Word
 * with a loading flag around the export.
 */
module DocumentExport {
  import opened Wrappers
  import opened Strings
  import opened Chapters
  import WordExport

  // ---------------------------------------------------------------------------------------------
  // The sort by `templentChapterId`
  // ---------------------------------------------------------------------------------------------

  predicate SortedById(s: seq<ChapterItem>) {
    forall i, j :: 0 <= i < j < |s| ==> s[i].templentChapterId <= s[j].templentChapterId
  }

  /** Inserts `x` after every element whose id is not greater than its own. */
  function Insert(x: ChapterItem, s: seq<ChapterItem>): (r: seq<ChapterItem>)
    ensures multiset(r) == multiset(s) + multiset{x}
    ensures |r| == |s| + 1
    decreases |s|
  {
    if |s| == 0 then [x]
    else if x.templentChapterId < s[0].templentChapterId then [x] + s
    else
      assert s == [s[0]] + s[1..];
      [s[0]] + Insert(x, s[1..])
  }

  /** Inserting into a sorted list keeps it sorted. */
  lemma {:induction false} InsertSorted(x: ChapterItem, s: seq<ChapterItem>)
    requires SortedById(s)
    ensures SortedById(Insert(x, s))
    decreases |s|
  {
    if |s| > 0 && x.templentChapterId >= s[0].templentChapterId {
      var rest := Insert(x, s[1..]);
      InsertSorted(x, s[1..]);
      assert s == [s[0]] + s[1..];
      forall k | 0 <= k < |rest| ensures s[0].templentChapterId <= rest[k].templentChapterId {
        assert rest[k] in multiset(s[1..]) + multiset{x};
        if rest[k] != x {
          assert rest[k] in s[1..];
        }
      }
    }
  }

  /**
   * `chapterList.sort((a, b) => a.templentChapterId - b.templentChapterId)`: an insertion sort,
   * stable like the JavaScript sort.
   */
  function SortById(s: seq<ChapterItem>): (r: seq<ChapterItem>)
    ensures SortedById(r)
    ensures multiset(r) == multiset(s)
    ensures |r| == |s|
    decreases |s|
  {
    if |s| == 0 then []
    else
      var init := s[..|s| - 1];
      assert s == init + [s[|s| - 1]];
      InsertSorted(s[|s| - 1], SortById(init));
      Insert(s[|s| - 1], SortById(init))
  }

  /** A chapter whose id is not less than any in the list goes to its end. */
  lemma {:induction false} InsertAtEnd(x: ChapterItem, s: seq<ChapterItem>)
    requires forall i :: 0 <= i < |s| ==> s[i].templentChapterId <= x.templentChapterId
    ensures Insert(x, s) == s + [x]
    decreases |s|
  {
    if |s| > 0 {
      InsertAtEnd(x, s[1..]);
      assert s == [s[0]] + s[1..];
    }
  }

  /** Sorting a list that is already in id order leaves it as it is. */
  lemma {:induction false} SortSortedIdentity(s: seq<ChapterItem>)
    requires SortedById(s)
    ensures SortById(s) == s
    decreases |s|
  {
    if |s| > 0 {
      var init, last := s[..|s| - 1], s[|s| - 1];
      assert s == init + [last];
      SortSortedIdentity(init);
      InsertAtEnd(last, init);
    }
  }

  /** Sorting twice is sorting once, so a second `getFullDocumentContent` sees the list it left. */
  lemma SortByIdIdempotent(s: seq<ChapterItem>)
    ensures SortById(SortById(s)) == SortById(s)
    ensures FullDocumentContent(SortById(s)) == FullDocumentContent(s)
  {
    SortSortedIdentity(SortById(s));
  }

  // ---------------------------------------------------------------------------------------------
  // getFullDocumentContent and getCharCount
  // ---------------------------------------------------------------------------------------------

  /** `chapter.templentChapterContent || ""` */
  function ChapterText(c: ChapterItem): string {
    OrElse(c.templentChapterContent, "")
  }

  function Contents(s: seq<ChapterItem>): (r: seq<string>)
    ensures |r| == |s|
  {
    seq(|s|, i requires 0 <= i < |s| => ChapterText(s[i]))
  }

  /** The joined document: `""` for no chapters, else the contents in ascending id order joined by newlines. */
  function FullDocumentContent(list: seq<ChapterItem>): (doc: string) {
    if |list| == 0 then "" else Join(Contents(SortById(list)), "\n")
  }

  /** `getCharCount`: missing or empty content counts 0, other content its length. */
  function CharCount(content: Option<string>): (n: nat)
    ensures n == |OrElse(content, "")|
    ensures content.Some? ==> n == |content.value|
  {
    if content.Some? && content.value != "" then |content.value| else 0
  }

  function SumCharCount(s: seq<ChapterItem>): nat
    decreases |s|
  {
    if |s| == 0 then 0 else CharCount(s[0].templentChapterContent) + SumCharCount(s[1..])
  }

  lemma {:induction false} SumCharCountSnoc(s: seq<ChapterItem>, x: ChapterItem)
    ensures SumCharCount(s + [x]) == SumCharCount(s) + CharCount(x.templentChapterContent)
    decreases |s|
  {
    if |s| == 0 {
      assert (s + [x])[1..] == [];
    } else {
      assert (s + [x])[1..] == s[1..] + [x];
      SumCharCountSnoc(s[1..], x);
    }
  }

  lemma {:induction false} SumCharCountInsert(x: ChapterItem, s: seq<ChapterItem>)
    ensures SumCharCount(Insert(x, s)) == CharCount(x.templentChapterContent) + SumCharCount(s)
    decreases |s|
  {
    if |s| > 0 && x.templentChapterId >= s[0].templentChapterId {
      SumCharCountInsert(x, s[1..]);
      assert Insert(x, s)[1..] == Insert(x, s[1..]);
    } else if |s| > 0 {
      assert Insert(x, s)[1..] == s;
    }
  }

  /** Sorting moves chapters around but keeps their total size. */
  lemma {:induction false} SumCharCountSorted(s: seq<ChapterItem>)
    ensures SumCharCount(SortById(s)) == SumCharCount(s)
    decreases |s|
  {
    if |s| > 0 {
      var init, last := s[..|s| - 1], s[|s| - 1];
      assert s == init + [last];
      var sortedInit := SortById(init);
      assert SortById(s) == Insert(last, sortedInit);
      calc {
        SumCharCount(SortById(s));
        == { SumCharCountInsert(last, sortedInit); }
        CharCount(last.templentChapterContent) + SumCharCount(sortedInit);
        == { SumCharCountSorted(init); }
        CharCount(last.templentChapterContent) + SumCharCount(init);
        == { SumCharCountSnoc(init, last); }
        SumCharCount(s);
      }
    }
  }

  lemma {:induction false} ContentsLength(s: seq<ChapterItem>)
    ensures TotalLength(Contents(s)) == SumCharCount(s)
    decreases |s|
  {
    if |s| > 0 {
      ContentsLength(s[1..]);
      assert Contents(s)[1..] == Contents(s[1..]);
    }
  }

  /** The joined document is as long as all chapters' character counts plus one newline between neighbours. */
  lemma FullContentLength(list: seq<ChapterItem>)
    requires |list| > 0
    ensures |FullDocumentContent(list)| == SumCharCount(list) + |list| - 1
  {
    JoinLength(Contents(SortById(list)), "\n");
    ContentsLength(SortById(list));
    SumCharCountSorted(list);
  }

  /**
   * The document is empty exactly when there are no chapters or a single chapter without content:
   * two empty chapters already give `"\n"`.
   */
  lemma EmptyContentIff(list: seq<ChapterItem>)
    ensures FullDocumentContent(list) == "" <==>
            |list| == 0 || (|list| == 1 && CharCount(list[0].templentChapterContent) == 0)
  {
    if |list| > 0 {
      FullContentLength(list);
      if |list| == 1 {
        assert list[1..] == [];
      }
    }
  }

  /** The contents appear in ascending `templentChapterId` order, each the chapter's content or `""`. */
  lemma FullContentOrder(list: seq<ChapterItem>)
    requires |list| > 0
    ensures var sorted := SortById(list);
      && FullDocumentContent(list) == Join(Contents(sorted), "\n")
      && multiset(sorted) == multiset(list)
      && (forall i, j :: 0 <= i < j < |sorted| ==> sorted[i].templentChapterId <= sorted[j].templentChapterId)
      && (forall i :: 0 <= i < |sorted| ==> Contents(sorted)[i] == OrElse(sorted[i].templentChapterContent, ""))
  {
  }

  // ---------------------------------------------------------------------------------------------
  // The two columns of the chapter overview
  // ---------------------------------------------------------------------------------------------

  /** `Math.ceil(n / 2)` for a length `n`. */
  function CeilHalf(n: nat): (h: nat)
    ensures n <= 2 * h <= n + 1
  {
    (n + 1) / 2
  }

  function LeftColumn(list: seq<ChapterItem>): seq<ChapterItem> {
    list[..CeilHalf(|list|)]
  }

  function RightColumn(list: seq<ChapterItem>): seq<ChapterItem> {
    list[CeilHalf(|list|)..]
  }

  /** The left column holds the first half rounded up, the right one the rest: together the list, in order. */
  lemma ColumnsPartition(list: seq<ChapterItem>)
    ensures LeftColumn(list) + RightColumn(list) == list
    ensures |LeftColumn(list)| == |RightColumn(list)| || |LeftColumn(list)| == |RightColumn(list)| + 1
  {
    assert list[..CeilHalf(|list|)] + list[CeilHalf(|list|)..] == list;
  }

  // ---------------------------------------------------------------------------------------------
  // The component's export flow
  // ---------------------------------------------------------------------------------------------

  /** The fields of the contract record this step reads. */
  datatype ContractInfo = ContractInfo(
    projectName: Option<string>,
    procurementUnit: Option<string>,
    servicePeriod: Option<string>,
    serviceLocation: Option<string>,
    contentList: Option<seq<ChapterItem>>)

  const DefaultProcurementUnit := "中国宝原投资有限公司集采中心"

  /** What pressing "export" ends in: a warning, a finished export, or an error message. */
  datatype DownloadOutcome = NothingToExport | Exported(children: seq<WordExport.Element>) | ExportFailed

  /** `contractBaseInfo?.projectName || "采购文档"` */
  function ExportProjectName(info: Option<ContractInfo>): string {
    OrElse(if info.Some? then info.value.projectName else None, WordExport.DefaultProjectName)
  }

  /** The `projectInfo` argument: the record's fields, with the default procurement unit. */
  function ExportProjectInfo(info: Option<ContractInfo>): WordExport.ProjectInfo {
    if info.Some? then
      WordExport.ProjectInfo(info.value.projectName, Some(OrElse(info.value.procurementUnit, DefaultProcurementUnit)),
                             info.value.servicePeriod, info.value.serviceLocation)
    else WordExport.ProjectInfo(None, Some(DefaultProcurementUnit), None, None)
  }

  /**
   * The record after `getFullDocumentContent` sorted `list` in place: when the chapter list is the
   * record's own `contentList` array, the record's list is reordered with it.
   */
  function SortedRecord(info: Option<ContractInfo>, list: seq<ChapterItem>, aliased: bool): Option<ContractInfo>
    requires aliased ==> info.Some?
  {
    if aliased && |list| > 0 then Some(info.value.(contentList := Some(SortById(list)))) else info
  }

  /** Reordering the record's chapter list leaves the fields the export reads as they were. */
  lemma SortedRecordKeepsExportFields(info: Option<ContractInfo>, list: seq<ChapterItem>, aliased: bool)
    requires aliased ==> info.Some?
    ensures ExportProjectName(SortedRecord(info, list, aliased)) == ExportProjectName(info)
    ensures ExportProjectInfo(SortedRecord(info, list, aliased)) == ExportProjectInfo(info)
    ensures SortedRecord(info, list, aliased).Some? <==> info.Some?
  {
  }

  class ExportPage {
    var chapterList: seq<ChapterItem>
    var exportLoading: bool
    var contractBaseInfo: Option<ContractInfo>
    /** Whether `chapterList` is the very array held as `contractBaseInfo.contentList`. */
    var listIsRecordList: bool
    /** Every value `exportLoading` was set to, in order. */
    ghost var loadingHistory: seq<bool>

    /** The shared array has one value: the record's list is the chapter list. */
    predicate Valid()
      reads this
    {
      listIsRecordList ==> contractBaseInfo.Some? && contractBaseInfo.value.contentList == Some(chapterList)
    }

    constructor ()
      ensures Valid()
      ensures chapterList == [] && !exportLoading && contractBaseInfo == None && !listIsRecordList
      ensures loadingHistory == []
    {
      chapterList := [];
      exportLoading := false;
      contractBaseInfo := None;
      listIsRecordList := false;
      loadingHistory := [];
    }

    /**
     * The effect on a new contract record: its `contentList`, when present, becomes the chapter
     * list, as the same array; otherwise the list stays and no longer belongs to the record.
     */
    method OnContractBaseInfo(info: Option<ContractInfo>)
      modifies this
      ensures Valid()
      ensures contractBaseInfo == info
      ensures listIsRecordList <==> info.Some? && info.value.contentList.Some?
      ensures chapterList == (if info.Some? && info.value.contentList.Some? then info.value.contentList.value else old(chapterList))
      ensures exportLoading == old(exportLoading) && loadingHistory == old(loadingHistory)
    {
      contractBaseInfo := info;
      listIsRecordList := info.Some? && info.value.contentList.Some?;
      if listIsRecordList {
        chapterList := info.value.contentList.value;
      }
    }

    /**
     * `getFullDocumentContent`, which sorts the chapter list in place before joining it; when the
     * list is the record's `contentList`, the record sees the new order too.
     */
    method GetFullDocumentContent() returns (content: string)
      requires Valid()
      modifies this
      ensures Valid()
      ensures content == FullDocumentContent(old(chapterList))
      ensures chapterList == (if |old(chapterList)| == 0 then old(chapterList) else SortById(old(chapterList)))
      ensures contractBaseInfo == SortedRecord(old(contractBaseInfo), old(chapterList), old(listIsRecordList))
      ensures listIsRecordList == old(listIsRecordList)
      ensures exportLoading == old(exportLoading) && loadingHistory == old(loadingHistory)
    {
      if |chapterList| == 0 {
        return "";
      }
      var sorted := SortById(chapterList);
      chapterList := sorted;
      if listIsRecordList {
        contractBaseInfo := Some(contractBaseInfo.value.(contentList := Some(sorted)));
      }
      var parts := seq(|sorted|, i requires 0 <= i < |sorted| => ChapterText(sorted[i]));
      content := Join(parts, "\n");
    }

    /**
     * One render of the page: the two overview columns are cut from the list as it is, then the
     * preview card (only for a non-empty list) and the preview modal each call
     * `getFullDocumentContent`, so the first call sorts the list and the second one sees it sorted.
     */
    method Render() returns (left: seq<ChapterItem>, right: seq<ChapterItem>, preview: Option<string>, modal: string)
      requires Valid()
      modifies this
      ensures Valid()
      ensures left == LeftColumn(old(chapterList)) && right == RightColumn(old(chapterList))
      ensures preview == (if |old(chapterList)| > 0 then Some(FullDocumentContent(old(chapterList))) else None)
      ensures modal == FullDocumentContent(old(chapterList))
      ensures chapterList == (if |old(chapterList)| == 0 then old(chapterList) else SortById(old(chapterList)))
      ensures contractBaseInfo == SortedRecord(old(contractBaseInfo), old(chapterList), old(listIsRecordList))
      ensures listIsRecordList == old(listIsRecordList)
      ensures exportLoading == old(exportLoading) && loadingHistory == old(loadingHistory)
    {
      left, right := LeftColumn(chapterList), RightColumn(chapterList);
      preview := None;
      if |chapterList| > 0 {
        var first := GetFullDocumentContent();
        preview := Some(first);
      }
      ghost var list := chapterList;
      modal := GetFullDocumentContent();
      if |old(chapterList)| > 0 {
        SortByIdIdempotent(old(chapterList));
        assert list == SortById(old(chapterList));
      }
    }

    /**
     * `handleDownloadWord`: an empty document only warns; otherwise the loading flag is set, the
     * export runs on the lexer's tokens of the document (`lex` stands for `marked.lexer`; `packed`
     * for whether serialising and downloading succeed) and the flag is cleared on success and on
     * failure alike.
     */
    method HandleDownloadWord(lex: string -> seq<WordExport.Token>, packed: bool) returns (outcome: DownloadOutcome)
      requires Valid()
      modifies this
      ensures Valid()
      ensures chapterList == (if |old(chapterList)| == 0 then old(chapterList) else SortById(old(chapterList)))
      ensures contractBaseInfo == SortedRecord(old(contractBaseInfo), old(chapterList), old(listIsRecordList))
      ensures listIsRecordList == old(listIsRecordList)
      ensures FullDocumentContent(old(chapterList)) == "" ==>
        outcome == NothingToExport && exportLoading == old(exportLoading) && loadingHistory == old(loadingHistory)
      ensures FullDocumentContent(old(chapterList)) != "" ==>
        && !exportLoading
        && loadingHistory == old(loadingHistory) + [true, false]
        && outcome == (if packed
                       then Exported(WordExport.DocumentChildren(lex(FullDocumentContent(old(chapterList))),
                                                                 Some(ExportProjectName(old(contractBaseInfo))),
                                                                 Some(ExportProjectInfo(old(contractBaseInfo)))))
                       else ExportFailed)
    {
      ghost var info0, list0, aliased0 := contractBaseInfo, chapterList, listIsRecordList;
      var content := GetFullDocumentContent();
      if content == "" {
        return NothingToExport;
      }
      SortedRecordKeepsExportFields(info0, list0, aliased0);
      outcome := RunExport(content, lex, packed);
    }

    /**
     * The `try`/`finally` of `handleDownloadWord`: the loading flag is set, the document is
     * exported with the record's project name and information, and the flag is cleared whether
     * the export succeeds or fails.
     */
    method RunExport(content: string, lex: string -> seq<WordExport.Token>, packed: bool) returns (outcome: DownloadOutcome)
      modifies this
      ensures !exportLoading && loadingHistory == old(loadingHistory) + [true, false]
      ensures outcome == (if packed
                          then Exported(WordExport.DocumentChildren(lex(content), Some(ExportProjectName(contractBaseInfo)),
                                                                    Some(ExportProjectInfo(contractBaseInfo))))
                          else ExportFailed)
      ensures chapterList == old(chapterList) && contractBaseInfo == old(contractBaseInfo)
      ensures listIsRecordList == old(listIsRecordList)
    {
      exportLoading := true;
      loadingHistory := loadingHistory + [true];
      var children := WordExport.ExportMarkdownToWord(lex(content), Some(ExportProjectName(contractBaseInfo)),
                                                      Some(ExportProjectInfo(contractBaseInfo)), packed);
      outcome := if children.Some? then Exported(children.value) else ExportFailed;
      exportLoading := false;
      loadingHistory := loadingHistory + [false];
    }
  }

  /** Two chapters without content still give a non-empty document (`"\n"`), so the export goes ahead. */
  lemma TwoEmptyChaptersExport(a: ChapterItem, b: ChapterItem)
    requires a.templentChapterContent == None && b.templentChapterContent == Some("")
    ensures FullDocumentContent([a, b]) == "\n"
  {
    var sorted := SortById([a, b]);
    assert multiset(sorted) == multiset{a, b};
    assert sorted[0] in multiset(sorted) && sorted[1] in multiset(sorted);
    assert |sorted| == 2;
    assert sorted[0] == a || sorted[0] == b;
    assert sorted[1] == a || sorted[1] == b;
    var parts := Contents(sorted);
    assert parts == ["", ""];
    assert parts[1..] == [""];
    assert Join(parts, "\n") == "" + "\n" + Join([""], "\n");
  }
}
