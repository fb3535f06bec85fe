# Procurement document wizard — a Dafny model

A model of the logic of a web front end that helps a procurement office write a tender document
in steps: pick a procurement category from a tree, fill in the project form, edit the document's
chapters (some with AI help, the rest in a Markdown editor), then join the chapters and export
them as a Word document. Two variants of the wizard exist: a four-step document wizard and a
category-based wizard whose last view is the chapter editor.

The model covers:

- **WordExport** (`word_export.dfy`): the translation of the Markdown lexer's tokens into Word
  paragraphs and tables (heading levels and spacing, table rows and cell widths, list prefixes,
  code and quote styling, the horizontal rule), the front matter the export puts before the body
  (title, project-information block), and the conversion of tokens to plain text. Both token loops
  are methods proved equal to a specification function.
- **CategoryTree** (`category_tree.dfy`): the transformation of the category tree for the tree
  widget, the pre-order title search (a loop with early returns, proved against a recursive
  function), and the first step's selection state.
- **Chapters**, **ChapterEdit**, **TableChapterEdit** (`chapters.dfy`, `chapter_edit.dfy`,
  `table_chapter_edit.dfy`): the chapter record, the decoration both chapter editors apply to the
  loaded list, the content update of the edited chapter, and the editors' modal state.
- **DocumentExport** (`document_export.dfy`): the step that sorts the chapters by chapter id (in
  place, as the component does), joins their contents, counts characters, splits the overview
  into two columns, and guards the Word export with a loading flag.
- **Records**, **ContractWizard**, **TableWizard** (`records.dfy`, `contract_wizard.dfy`,
  `table_wizard.dfy`): the object spread over loosely typed records, and the two wizard pages as
  state machines over the current step, the template id, the contract id and the contract record.

Inputs that come from outside the model are parameters: the Markdown lexer's token list (`lex`
in the export), the answers of the backend (status codes, the saved id, the loaded records), and
whether writing the Word file succeeds (`packed`).

Where the documentation of the system and its code differ, the model follows the code: the Word
export has no bookmarks, table of contents or inline bold handling; ordered list items all read
`1.` with no numbering increment; inline Markdown in a paragraph is passed through unformatted.

## Model

| member | source | states |
|---|---|---|
| WordExport.HeadingLevelOf | src/pages/list/utils/wordExport.ts:21-44 | depths 1 to 6 map to that heading level, every other depth to level 1 |
| WordExport.TokenElements | src/pages/list/utils/wordExport.ts:17-212 | each token adds its kind's number of elements: one per heading, paragraph, code, quote and rule, one per list item, one table, one default paragraph only when the token has non-empty text |
| WordExport.BuildTableRows | src/pages/list/utils/wordExport.ts:71-119 | the loop builds the header row when a header is present, then one row per data row, in order |
| WordExport.PushListItems | src/pages/list/utils/wordExport.ts:132-147 | the loop appends one paragraph per list item, in order, after the elements already built |
| WordExport.ParseMarkdownToWordElements | src/pages/list/utils/wordExport.ts:11-215 | the token loop yields exactly the concatenation of every token's elements, in token order (the reference definition is `WordExport.Translate`) |
| WordExport.TranslateSnoc | src/pages/list/utils/wordExport.ts:17-212 | translating one more token appends that token's elements |
| WordExport.TranslateConcat | src/pages/list/utils/wordExport.ts:17-212 | the translation of a concatenation is the concatenation of the translations |
| WordExport.ElementCountConcat | src/pages/list/utils/wordExport.ts:17-212 | element counts add up over a concatenation of token lists |
| WordExport.TranslateLength | src/pages/list/utils/wordExport.ts:17-212 | the number of elements is the sum of the per-token counts |
| WordExport.TranslateOrder | src/pages/list/utils/wordExport.ts:17-212 | the elements of token i form one contiguous block right after all earlier tokens' elements |
| WordExport.HeadingLayout | src/pages/list/utils/wordExport.ts:20-55 | a heading is one paragraph with the token's text, the level of its depth (1 when out of range), 400 before only at depth 1 and 200 otherwise, 200 after |
| WordExport.OutOfRangeHeading | src/pages/list/utils/wordExport.ts:42-52 | depths 0 and 7 get level 1 but the spacing of a deeper heading (200 before) |
| WordExport.TableLayout | src/pages/list/utils/wordExport.ts:71-130 | a table has the header row exactly when a header is present, even an empty one, then one row per data row in order |
| WordExport.CellTexts | src/pages/list/utils/wordExport.ts:75-117 | header cells are bold and carry the header's texts, data cells are not bold and carry the row's texts, one cell per entry |
| WordExport.SumEqualWidths | src/pages/list/utils/wordExport.ts:99-119 | cells of equal width w sum to their number times w |
| WordExport.RowWidths | src/pages/list/utils/wordExport.ts:75-119 | each cell, in a data row and in the header row alike, is 100/n percent wide where n is the number of cells of its own row, so every non-empty row sums to 100 percent |
| WordExport.RaggedTable | src/pages/list/utils/wordExport.ts:88-116 | a 3-column header over a 2-cell row gives data cells of 50 percent, not 100/3 |
| WordExport.ListLayout | src/pages/list/utils/wordExport.ts:132-147 | every ordered item reads "1. " and its text, every unordered item "• " and its text; only unordered items carry bullet level 0 |
| WordExport.RuleLayout | src/pages/list/utils/wordExport.ts:180-193 | a horizontal rule is one paragraph holding one run of exactly fifty '─' |
| WordExport.ExportMarkdownToWord | src/pages/list/utils/wordExport.ts:218-337 | when the file is written the document's children are title, optional information block, then the translated body; a failure is passed on to the caller |
| WordExport.DocumentLayout | src/pages/list/utils/wordExport.ts:230-317 | the children are the title, six information paragraphs exactly when project information is given, then the body |
| WordExport.TitleChoice | src/pages/list/utils/wordExport.ts:218-236 | the title is the information's non-empty project name, otherwise the name argument, otherwise "采购文档" |
| WordExport.MissingInfoField | src/pages/list/utils/wordExport.ts:264-291 | a missing or empty information field renders as its caption alone |
| WordExport.TokenTextParts | src/pages/list/utils/wordExport.ts:350-383 | each token contributes its kind's number of text lines (headings, paragraphs and text always one, a rule none) |
| WordExport.PushTableText | src/pages/list/utils/wordExport.ts:357-365 | the table case appends the header joined by " \| " when present, then each row joined by " \| " |
| WordExport.PushItemTexts | src/pages/list/utils/wordExport.ts:366-370 | the list case appends every item's text in order |
| WordExport.MarkdownToText | src/pages/list/utils/wordExport.ts:345-386 | the plain text is the tokens' text lines, in token order, joined by newlines (the reference definition is `WordExport.TextParts`) |
| WordExport.TextPartsLength | src/pages/list/utils/wordExport.ts:350-383 | the number of text lines is the sum of the per-token counts |
| WordExport.EmptyTextParts | src/pages/list/utils/wordExport.ts:352-381 | an empty heading or paragraph still gives an (empty) line, an empty default token gives none |
| WordExport.TextRoundTrip | src/pages/list/utils/wordExport.ts:385 | when no line contains a newline, splitting the plain text at newlines gives back exactly the lines |
| Strings.JoinSplit | src/pages/list/utils/wordExport.ts:385 | splitting a join at its one-character separator recovers the parts when no part contains it |
| Strings.SplitJoin | src/pages/list/utils/wordExport.ts:385 | joining the pieces of a split with the separator gives back the string |
| Strings.JoinLength | src/pages/list/components/Step4.tsx:43-49 | a join is as long as its parts together plus one separator between neighbours |
| CategoryTree.TransformTreeData | src/pages/list/table-list/components/Step1.tsx:17-25 | the transformed forest has one node per original node |
| CategoryTree.TransformedFields | src/pages/list/table-list/components/Step1.tsx:17-25 | every node keeps its fields, gets title = name and key = id, is disabled exactly when it has children, and has null children exactly when childTemplent is missing or empty, the transformed children otherwise |
| CategoryTree.DisabledIffInner | src/pages/list/table-list/components/Step1.tsx:22-23 | a node is disabled exactly when the widget receives a non-empty children list for it |
| CategoryTree.TransformPreservesLabels | src/pages/list/table-list/components/Step1.tsx:17-25 | the transformed forest lists, in pre-order at every depth, exactly the original (id, name) pairs as (key, title) |
| CategoryTree.NodePreservesLabels | src/pages/list/table-list/components/Step1.tsx:18-23 | one node's subtree keeps its (id, name) pairs in pre-order |
| CategoryTree.FindNodeTitleById | src/pages/list/table-list/components/Step1.tsx:28-37 | the loop with early returns computes the pre-order search, nested results counting only when truthy (the reference definition is `CategoryTree.FindTitle`) |
| CategoryTree.NotFoundIsNull | src/pages/list/table-list/components/Step1.tsx:28-37 | when no node has the id the search returns null |
| CategoryTree.FoundIsNamed | src/pages/list/table-list/components/Step1.tsx:28-37 | a returned title is the name of some node with that id |
| CategoryTree.SearchSiblingOrder | src/pages/list/table-list/components/Step1.tsx:29-34 | on a + b the search returns what it finds in a, and searches b only when a gives nothing |
| CategoryTree.NodeBeforeChildren | src/pages/list/table-list/components/Step1.tsx:30 | a matching node returns its own name before its children are looked at |
| CategoryTree.TopLevelEmptyName | src/pages/list/table-list/components/Step1.tsx:30 | a match in the searched list returns its name even when empty |
| CategoryTree.NestedEmptyNameSkipped | src/pages/list/table-list/components/Step1.tsx:30-34 | when a node does not have the id itself and every node with the id below it is named "", the search over it and its later siblings gives what the search over the later siblings alone gives |
| CategoryTree.NestedEmptyNameExample | src/pages/list/table-list/components/Step1.tsx:30-34 | on a concrete tree, a nested match named "" is skipped and a later sibling's match is returned |
| CategoryTree.PresentIsFound | src/pages/list/table-list/components/Step1.tsx:28-37 | when some node has the id and no node with the id is named "", the search finds a non-empty title |
| CategoryTree.FirstNameConcat | src/pages/list/table-list/components/Step1.tsx:29-34 | the first name listed for an id in a + b is the first in a, or else the first in b |
| CategoryTree.FindIsFirst | src/pages/list/table-list/components/Step1.tsx:28-37 | when no node with the id is named "", the search returns the name of the first node with that id in pre-order, and null when there is none |
| CategoryTree.Step1State.constructor | src/pages/list/table-list/components/Step1.tsx:40-41 | nothing is selected at first |
| CategoryTree.Step1State.SyncTemplentId | src/pages/list/table-list/components/Step1.tsx:43-49 | with no selection and a truthy template id the id is selected and its title taken when the search finds a truthy one; otherwise nothing changes |
| CategoryTree.Step1State.OnSelect | src/pages/list/table-list/components/Step1.tsx:51-56 | a node with children leaves the selection unchanged; any other node becomes the selection with its title |
| CategoryTree.Step1State.HandleNextStep | src/pages/list/table-list/components/Step1.tsx:59-63 | the next step is requested, with the selected key, exactly when the key is non-empty |
| CategoryTree.SelectDisabledIsIgnored | src/pages/list/table-list/components/Step1.tsx:22-56 | selecting a disabled node of the transformed tree changes nothing |
| Chapters.DecorateChapters | src/pages/list/components/Step3.tsx:36-44 | the decorated list has one chapter per loaded chapter |
| Chapters.DecorationFields | src/pages/list/components/Step3.tsx:36-44 | each chapter keeps its fields; aiSupport is true exactly at indices 0 and 4, disabled exactly at 4, status is "已完成", and the AI description appears exactly where aiSupport is set |
| Chapters.DisabledImpliesAi | src/pages/list/components/Step3.tsx:39-40 | only an AI chapter is ever disabled |
| Chapters.DecorateIdempotent | src/pages/list/components/Step3.tsx:36-44 | decorating a decorated list changes nothing |
| Chapters.DescriptionFollowsAiSupport | src/pages/list/components/Step3.tsx:39-42 | chapters that agree on aiSupport agree on the description |
| Chapters.AiCount | src/pages/list/components/Step3.tsx:39 | none, one or two chapters support AI, for lists of 0, 1 to 4, and 5 or more chapters |
| ChapterEdit.UpdateContent | src/pages/list/components/Step3.tsx:71-79 | the update keeps the list's length |
| ChapterEdit.UpdateContentEffect | src/pages/list/components/Step3.tsx:71-79 | order is kept; a chapter with the current chapter's id gets the new content and nothing else in it changes; every other chapter is unchanged |
| ChapterEdit.NoCurrentNoChange | src/pages/list/components/Step3.tsx:72 | with no current chapter the list is unchanged |
| ChapterEdit.LastEditWins | src/pages/list/components/Step3.tsx:70-81 | two updates in a row equal the second one alone |
| ChapterEdit.UpdateKeepsDecoration | src/pages/list/components/Step3.tsx:73-76 | an update touches no field but the content |
| ChapterEdit.ChapterEditPage.constructor | src/pages/list/components/Step3.tsx:21-29 | an empty list, no current chapter, all modals closed |
| ChapterEdit.ChapterEditPage.LoadChapters | src/pages/list/components/Step3.tsx:31-49 | the list becomes the decorated response only for a truthy contract id and status 200 |
| ChapterEdit.ChapterEditPage.HandlePreview | src/pages/list/components/Step3.tsx:51-54 | the chapter becomes current and the preview opens |
| ChapterEdit.ChapterEditPage.ClickEdit | src/pages/list/components/Step3.tsx:109-117 | a disabled chapter changes nothing; an AI chapter opens the AI modal, any other the Markdown editor, and becomes current |
| ChapterEdit.ChapterEditPage.HandleContentUpdate | src/pages/list/components/Step3.tsx:70-81 | the list is replaced by its update for the current chapter |
| ChapterEdit.ChapterEditPage.HandleContentSave | src/pages/list/components/Step3.tsx:87-93 | the whole current list is sent, and the next step follows exactly when the save succeeds |
| ChapterEdit.ChapterEditPage.OnMarkdownOk | src/pages/list/components/Step3.tsx:140-143 | the editor's value updates the current chapter and the editor closes |
| TableChapterEdit.AiSupportAtFirstAndFifth | src/pages/list/table-list/components/Step3.tsx:44 | aiSupport is true exactly at indices 0 and 4 |
| TableChapterEdit.DisabledAtFifth | src/pages/list/table-list/components/Step3.tsx:45 | disabled is true exactly at index 4 |
| TableChapterEdit.DescriptionByAiIndex | src/pages/list/table-list/components/Step3.tsx:47 | the description depends only on whether the index is 0 or 4, and the two kinds differ |
| TableChapterEdit.StatusCompleted | src/pages/list/table-list/components/Step3.tsx:41-49 | every chapter keeps its fields and is marked "已完成" |
| TableChapterEdit.TableChapterEditPage.constructor | src/pages/list/table-list/components/Step3.tsx:22-34 | an empty list, all modals closed, empty texts |
| TableChapterEdit.TableChapterEditPage.LoadChapters | src/pages/list/table-list/components/Step3.tsx:36-54 | contract 122 is always requested; the list becomes the decorated response only on status 200; no modal field changes |
| TableChapterEdit.TableChapterEditPage.HandlePreview | src/pages/list/table-list/components/Step3.tsx:56-60 | the preview opens with the chapter's content ("" when missing) and name; the list, the AI modal and the editor are unchanged |
| TableChapterEdit.TableChapterEditPage.HandleAiEdit | src/pages/list/table-list/components/Step3.tsx:62-82 | the AI modal opens titled "编辑章节 - " and the chapter's name; the list, the preview and the editor are unchanged |
| TableChapterEdit.TableChapterEditPage.HandleMarkdownEdit | src/pages/list/table-list/components/Step3.tsx:84-88 | the editor opens with the chapter's name and its content ("" when missing); the list, the preview and the AI modal are unchanged |
| TableChapterEdit.TableChapterEditPage.ClickEdit | src/pages/list/table-list/components/Step3.tsx:109-117 | a disabled chapter changes nothing; an AI chapter opens the AI modal and leaves the editor, any other opens the Markdown editor and leaves the AI modal; the list and the preview never change |
| TableChapterEdit.TableChapterEditPage.OnMarkdownChange | src/pages/list/table-list/components/Step3.tsx:141 | typing changes the editor's value and every other field stays as it was |
| TableChapterEdit.TableChapterEditPage.OnMarkdownOk | src/pages/list/table-list/components/Step3.tsx:142 | confirming closes the editor; the chapter list and every other field stay as they were |
| DocumentExport.Insert | src/pages/list/components/Step4.tsx:44 | inserting adds exactly the one chapter |
| DocumentExport.InsertSorted | src/pages/list/components/Step4.tsx:44 | inserting into a list sorted by chapter id keeps it sorted |
| DocumentExport.SortById | src/pages/list/components/Step4.tsx:44 | the sorted list is ordered by chapter id and is a permutation of the list |
| DocumentExport.InsertAtEnd | src/pages/list/components/Step4.tsx:44 | a chapter whose id is not below any id of the list is inserted at its end |
| DocumentExport.SortSortedIdentity | src/pages/list/components/Step4.tsx:44 | a list already in id order is left as it is |
| DocumentExport.SortByIdIdempotent | src/pages/list/components/Step4.tsx:39-50 | sorting twice is sorting once, and the document of the sorted list is the document of the list |
| DocumentExport.CharCount | src/pages/list/components/Step4.tsx:92-94 | missing or empty content counts 0, any other content its length |
| DocumentExport.SumCharCountSorted | src/pages/list/components/Step4.tsx:44 | sorting keeps the total character count |
| DocumentExport.ContentsLength | src/pages/list/components/Step4.tsx:45-48 | the chapters' texts are together as long as their character counts |
| DocumentExport.FullContentLength | src/pages/list/components/Step4.tsx:39-50 | the joined document is as long as all character counts plus one newline between neighbouring chapters |
| DocumentExport.EmptyContentIff | src/pages/list/components/Step4.tsx:39-58 | the document is "" exactly when there is no chapter or a single chapter without content |
| DocumentExport.FullContentOrder | src/pages/list/components/Step4.tsx:43-49 | the document joins, with newlines, the contents ("" when missing) of a permutation of the chapters in ascending chapter-id order |
| DocumentExport.CeilHalf | src/pages/list/components/Step4.tsx:131 | the rounded-up half of n lies between n/2 and (n+1)/2 |
| DocumentExport.ColumnsPartition | src/pages/list/components/Step4.tsx:130-153 | the left column and the right column together are the list in order, the left one as long as the right one or one longer |
| DocumentExport.SortedRecordKeepsExportFields | src/pages/list/components/Step4.tsx:44-72 | reordering the record's chapter list keeps the project name and the project information the export reads |
| DocumentExport.ExportPage.constructor | src/pages/list/components/Step4.tsx:21-26 | no chapters, not loading, no contract record, the list not shared with a record |
| DocumentExport.ExportPage.OnContractBaseInfo | src/pages/list/components/Step4.tsx:32-36 | a record with a chapter list replaces the list, which is then the record's own array; otherwise the list stays and is no longer the record's |
| DocumentExport.ExportPage.GetFullDocumentContent | src/pages/list/components/Step4.tsx:34-50 | the joined document is returned and the chapter list is left sorted in place; when the list is the record's contentList the record's list is sorted with it, otherwise the record is unchanged (the reference definition of the document is `DocumentExport.FullDocumentContent`) |
| DocumentExport.ExportPage.Render | src/pages/list/components/Step4.tsx:128-233 | the columns are cut from the list before sorting; the preview card (for a non-empty list) and the modal both show the document of the list, and the list and the record end up sorted as after one getFullDocumentContent |
| DocumentExport.ExportPage.HandleDownloadWord | src/pages/list/components/Step4.tsx:53-80 | an empty document only warns and leaves the flag alone; otherwise the flag is set then cleared on success and failure alike, and the export gets the document with the record's project name or "采购文档" and its procurement unit or the default centre; the list and the record are sorted as by getFullDocumentContent |
| DocumentExport.ExportPage.RunExport | src/pages/list/components/Step4.tsx:60-79 | the flag is set then cleared whether the export succeeds or fails, and a successful export gets the document with the record's project name and information; list and record are untouched |
| DocumentExport.TwoEmptyChaptersExport | src/pages/list/components/Step4.tsx:39-58 | two chapters without content give "\n", so the export goes ahead |
| Records.Merge | src/pages/list/detail/index.tsx:47-51 | the merge has the keys of both records, with the later record's values where both have a key |
| Records.MergeIdempotent | src/pages/list/table-list/detail/index.tsx:59-62 | spreading the same values again changes nothing |
| Records.MergeAssociative | src/pages/list/detail/index.tsx:47-51 | successive spreads can be grouped either way |
| Records.MergeEmpty | src/pages/list/detail/index.tsx:48 | an empty object on either side leaves a record unchanged |
| ContractWizard.ActionType | src/pages/list/detail/index.tsx:21 | "create" exactly for the id "add", "edit" otherwise (the category wizard's line 23 of table-list/detail/index.tsx is the same) |
| ContractWizard.NextStep | src/pages/list/detail/index.tsx:41-79 | the four submits set steps 1, 2, 3 and 3, back goes one step down, the indicator only to an earlier step |
| ContractWizard.OnlySubmitsMoveForward | src/pages/list/detail/index.tsx:41-79 | only submits move forward; the indicator never does and always takes an earlier step |
| ContractWizard.CurrentView | src/pages/list/detail/index.tsx:102-123 | step 3 of the wizard (index 2) is shown exactly with a truthy contract id; nothing is shown outside the steps or at index 2 without an id |
| ContractWizard.StepStaysInRange | src/pages/list/detail/index.tsx:77-123 | any event the page offers keeps the step among the four and never skips a step forward |
| ContractWizard.MountEffectOf | src/pages/list/detail/index.tsx:33-39 | the contract is fetched exactly in edit mode with a truthy id; otherwise the reset, which the contract model does not provide, fails |
| ContractWizard.CreateModeMountFails | src/pages/list/detail/index.tsx:37 | the create page always reaches the failing reset |
| ContractWizard.SavePayload | src/pages/list/detail/index.tsx:47-51 | the payload holds the stored record's keys, the form values over them, and the current template id |
| ContractWizard.DocumentWizard.constructor | src/pages/list/detail/index.tsx:22-31 | step 0, the truthy route id or null as contract id, and the template id and record the app-wide contract model already holds (null and none on a first visit, the last contract's after an earlier one) |
| ContractWizard.DocumentWizard.Mount | src/pages/list/detail/index.tsx:33-39 | the mount effect is the one the route id determines; the throwing reset tears the page down, after which Dispatch takes no event, and the contract model keeps its template id and record |
| ContractWizard.DocumentWizard.OnContractInfo | src/pages/list/models/contractBaseInfo.ts:19-24 | the loaded record and its template id are stored |
| ContractWizard.DocumentWizard.HandleStep1Submit | src/pages/list/detail/index.tsx:41-44 | the template id is recorded and the step becomes 1 |
| ContractWizard.DocumentWizard.HandleStep2Submit | src/pages/list/detail/index.tsx:46-54 | the payload is sent; a successful save stores a copy of it, moves to step 2 and takes the returned id; a failed one changes nothing |
| ContractWizard.DocumentWizard.HandleStep3Submit | src/pages/list/detail/index.tsx:56-58 | the step becomes 3 |
| ContractWizard.DocumentWizard.HandleStep4Submit | src/pages/list/detail/index.tsx:60-63 | the step stays 3 and the list page is pushed |
| ContractWizard.DocumentWizard.HandleBack | src/pages/list/detail/index.tsx:65-67 | the step goes one down |
| ContractWizard.DocumentWizard.OnStepsChange | src/pages/list/detail/index.tsx:77-79 | the step changes only to an earlier one |
| ContractWizard.DocumentWizard.Dispatch | src/pages/list/detail/index.tsx:41-123 | an event the shown page offers moves the step as defined and keeps it among the four steps |
| TableWizard.NextStep | src/pages/list/table-list/detail/index.tsx:45-86 | submits set steps 1 and 2, the third submit keeps the step, back goes one down, the indicator only to an earlier step |
| TableWizard.OnlySubmitsMoveForward | src/pages/list/table-list/detail/index.tsx:45-86 | only the first two submits move forward; the indicator only back |
| TableWizard.CurrentView | src/pages/list/table-list/detail/index.tsx:111-130 | the first view is shown exactly at step 0 with a non-empty tree; steps 1 and 2 show their views; nothing else |
| TableWizard.StepStaysInRange | src/pages/list/table-list/detail/index.tsx:82-130 | any offered event keeps the step between 0 and 2 |
| TableWizard.SavePayload | src/pages/list/table-list/detail/index.tsx:51-55 | the payload is the form values with the template id and the contract id over them |
| TableWizard.SavedInfo | src/pages/list/table-list/detail/index.tsx:59-62 | the kept record has the old record's keys and the form's, the form's values winning |
| TableWizard.SaveTwiceSameInfo | src/pages/list/table-list/detail/index.tsx:59-62 | saving the same values twice keeps the same record as once |
| TableWizard.TableWizardPage.constructor | src/pages/list/table-list/detail/index.tsx:24-29 | step 0, no tree, loading, the truthy route id or null as contract id |
| TableWizard.TableWizardPage.Mount | src/pages/list/table-list/detail/index.tsx:31-43 | the tree is always requested, the contract record exactly in edit mode |
| TableWizard.TableWizardPage.OnCategoryTree | src/pages/list/table-list/detail/index.tsx:32-35 | loading ends and the tree is stored |
| TableWizard.TableWizardPage.OnContractInfo | src/pages/list/table-list/detail/index.tsx:37-41 | the record and its template id are stored |
| TableWizard.TableWizardPage.HandleStep1Submit | src/pages/list/table-list/detail/index.tsx:45-48 | the template id is recorded and the step becomes 1 |
| TableWizard.TableWizardPage.HandleStep2Submit | src/pages/list/table-list/detail/index.tsx:50-64 | the payload is sent; a successful save takes the returned id, moves to step 2 and spreads the form over the record held at submission; a failed one changes nothing |
| TableWizard.TableWizardPage.HandleStep3Submit | src/pages/list/table-list/detail/index.tsx:66-68 | the step is unchanged |
| TableWizard.TableWizardPage.HandleBack | src/pages/list/table-list/detail/index.tsx:70-72 | the step goes one down |
| TableWizard.TableWizardPage.OnStepsChange | src/pages/list/table-list/detail/index.tsx:82-86 | the step changes only to an earlier one |
| TableWizard.TableWizardPage.Dispatch | src/pages/list/table-list/detail/index.tsx:45-130 | an event the shown page offers moves the step as defined and keeps it between 0 and 2 |

## Left out

- The Markdown lexer is not modelled: its token list is an input, and tokens carry their cells and list items as plain strings.
- The Word library is not modelled: paragraphs, runs, tables and cells are plain records, and serialising and downloading the file is one boolean outcome.
- The download's file name (project name and today's date) is left out, because it depends on the clock.
- `markdownToHtml` and `exportHtmlToWord` are left out: the first only calls the HTML renderer, and the second is markup around it plus a browser download.
- `src/pages/list/utils/wordExport.test.ts` tests `parseInlineFormatting` and `handleLineBreaks`, which `wordExport.ts` does not define; they are not part of this model.
- Logging, the toast messages and the rendering of markup are left out; the outcome of an export is a value instead of a message. The export step's render is modelled only for what it computes (its columns, its two document previews and the in-place sort they cause).
- The document wizard and its export step read one shared contract-model record; the model keeps two unlinked records, the wizard's as a map and the export step's as a `ContractInfo`. So neither the export step's own fetch of the record nor its in-place sort of `contentList` reaches the record the wizard spreads into its save payload. The category wizard keeps its own copy of the record as local state, and that copy is also separate from the export step's record.
- Records.JsValue: a field holds only a string, `null` or nothing. Ids such as `templentId` and the contract ids are modelled as strings. Number and array fields are not modelled, so the record's `contentList` never reaches the modelled save payload.
- ContractWizard.DocumentWizard.Mount: the error thrown by the missing `reset` is modelled only as the page taking no further event; the error boundary and whatever it shows instead are left out.
- REST services, the contract model's fetches and the routing library are left out; their answers are parameters of the handlers.
- The AI modal's mock blocks and the other modal components are left out, because they hold no logic.
- Floating point is exact: the cell widths 100/n are reals, with no rounding.
- DocumentExport.SortById: stated as ordered and a permutation; stability of equal ids is not proved.
- CategoryTree.TransformTreeData: `disabled` is undefined for a node without `childTemplent`; the model uses false, which the widget treats the same.
- CategoryTree.Step1State.OnSelect: an empty selection (key undefined) is the empty key, since every reader treats both as falsy.
- The category wizard's stale record capture is not modelled separately: the save handler spreads over the record held when the form was submitted, which is what the model keeps.
- Step 2's form and the first step of the document wizard are left out, because they are layout with no logic.
- The export step's previous and finish buttons are left out: they only call the wizard's back and submit handlers, which are modelled.
