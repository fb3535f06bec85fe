/**
 * The three-view, category-based wizard page: it loads the category tree, keeps the template id,
 * the contract id and its own copy of the contract record, and moves between steps like the
 * document wizard, except that its last step's submit only logs.
 */
module TableWizard {
  import opened Wrappers
  import opened Records
  import CategoryTree
  import ContractWizard

  datatype TableEvent =
    | Step1Submit(templateKey: string)
    | Step2Saved(value: Record, savedId: JsValue)
    | Step3Submit
    | Back
    | Indicator(target: int)

  /** The step after an event; step 3's submit leaves the step where it is. */
  function NextStep(step: int, e: TableEvent): (r: int)
    ensures e.Indicator? ==> r <= step && (r != step ==> r == e.target)
    ensures e.Back? ==> r == step - 1
    ensures (e.Step1Submit? ==> r == 1) && (e.Step2Saved? ==> r == 2) && (e.Step3Submit? ==> r == step)
  {
    match e
    case Step1Submit(_) => 1
    case Step2Saved(_, _) => 2
    case Step3Submit => step
    case Back => step - 1
    case Indicator(target) => if target < step then target else step
  }

  /** Only the first two submits move forward; the indicator only moves back. */
  lemma OnlySubmitsMoveForward(step: int, e: TableEvent)
    ensures NextStep(step, e) > step ==> e.Step1Submit? || e.Step2Saved?
    ensures e.Indicator? ==> NextStep(step, e) <= step
    ensures e.Indicator? && e.target < step ==> NextStep(step, e) == e.target
  {
  }

  datatype TableView = Step1View | Step2View | Step3View | NoView

  /** Step 1 needs a loaded, non-empty category tree; step 3 (the fourth item) has no view. */
  function CurrentView(step: int, treeSize: nat): (v: TableView)
    ensures v == Step1View <==> step == 0 && treeSize > 0
    ensures v == Step2View <==> step == 1
    ensures v == Step3View <==> step == 2
  {
    if step == 0 && treeSize > 0 then Step1View
    else if step == 1 then Step2View
    else if step == 2 then Step3View
    else NoView
  }

  /**
   * The events a view offers. The third view's save button has no click handler, so its submit
   * is never offered.
   */
  predicate Offers(v: TableView, e: TableEvent) {
    match e
    case Step1Submit(_) => v == Step1View
    case Step2Saved(_, _) => v == Step2View
    case Step3Submit => false
    case Back => v == Step2View || v == Step3View
    case Indicator(target) => 0 <= target <= 3
  }

  /** Events the page offers keep the step in 0 to 2, so the empty fourth step is never reached. */
  lemma StepStaysInRange(step: int, treeSize: nat, e: TableEvent)
    requires 0 <= step <= 2
    requires Offers(CurrentView(step, treeSize), e)
    ensures 0 <= NextStep(step, e) <= 2
  {
  }

  /** The save payload: the form values, then the template id and the contract id. */
  function SavePayload(value: Record, templentId: JsValue, contractBaseId: JsValue): (p: Record)
    ensures p.Keys == value.Keys + {"templentId", "id"}
    ensures p["templentId"] == templentId && p["id"] == contractBaseId
    ensures forall k :: k in value && k != "templentId" && k != "id" ==> p[k] == value[k]
  {
    Merge(value, map["templentId" := templentId, "id" := contractBaseId])
  }

  /** The record kept after a save: the form values spread over the record held when submitting. */
  function SavedInfo(info: Option<Record>, value: Record): (r: Record)
    ensures r.Keys == Spread(info).Keys + value.Keys
    ensures forall k :: k in value ==> r[k] == value[k]
    ensures forall k :: k in Spread(info) && k !in value ==> r[k] == Spread(info)[k]
  {
    Merge(Spread(info), value)
  }

  /** Saving the same form values twice keeps the same record as saving them once. */
  lemma SaveTwiceSameInfo(info: Option<Record>, value: Record)
    ensures SavedInfo(Some(SavedInfo(info, value)), value) == SavedInfo(info, value)
  {
    MergeIdempotent(Spread(info), value);
  }

  class TableWizardPage {
    const paramsId: Option<string>
    var currentStep: int
    var categoryTree: seq<CategoryTree.TreeNode>
    var loading: bool
    var templentId: JsValue
    var contractBaseId: JsValue
    var contractBaseInfo: Option<Record>

    predicate Valid()
      reads this
    {
      0 <= currentStep <= 2
    }

    constructor (id: Option<string>)
      ensures paramsId == id && currentStep == 0 && categoryTree == [] && loading
      ensures templentId == Null && contractBaseId == OrNull(id) && contractBaseInfo == None
      ensures Valid()
    {
      paramsId := id;
      currentStep := 0;
      categoryTree := [];
      loading := true;
      templentId := Null;
      contractBaseId := OrNull(id);
      contractBaseInfo := None;
    }

    function View(): TableView
      reads this
    {
      CurrentView(currentStep, |categoryTree|)
    }

    /** The mount effect always requests the tree, and the contract record exactly in edit mode. */
    method Mount() returns (fetchTree: bool, fetchInfo: bool)
      ensures fetchTree
      ensures fetchInfo <==> paramsId != Some("add")
    {
      fetchTree := true;
      fetchInfo := ContractWizard.ActionType(paramsId) == "edit";
    }

    /** The category tree arrives: loading ends and the tree is stored. */
    method OnCategoryTree(data: seq<CategoryTree.TreeNode>)
      modifies this
      ensures !loading && categoryTree == data
      ensures currentStep == old(currentStep) && templentId == old(templentId)
      ensures contractBaseId == old(contractBaseId) && contractBaseInfo == old(contractBaseInfo)
    {
      loading := false;
      categoryTree := data;
    }

    /** The contract record arrives: it is stored and its template id taken over. */
    method OnContractInfo(data: Record)
      modifies this
      ensures contractBaseInfo == Some(data) && templentId == Get(data, "templentId")
      ensures currentStep == old(currentStep) && categoryTree == old(categoryTree)
      ensures loading == old(loading) && contractBaseId == old(contractBaseId)
    {
      contractBaseInfo := Some(data);
      templentId := Get(data, "templentId");
    }

    method HandleStep1Submit(value: string)
      modifies this
      ensures templentId == Str(value) && currentStep == NextStep(old(currentStep), Step1Submit(value))
      ensures categoryTree == old(categoryTree) && loading == old(loading)
      ensures contractBaseId == old(contractBaseId) && contractBaseInfo == old(contractBaseInfo)
    {
      templentId := Str(value);
      currentStep := 1;
    }

    /**
     * `handleStep2Submit`: the payload is sent; once saved, the returned id becomes the contract
     * id, the step 2, and the form values are spread over the record held when submitting. A
     * rejected save changes nothing.
     */
    method HandleStep2Submit(value: Record, response: ContractWizard.SaveResponse) returns (payload: Record)
      modifies this
      ensures payload == SavePayload(value, old(templentId), old(contractBaseId))
      ensures response.Saved? ==>
        contractBaseId == response.data && currentStep == NextStep(old(currentStep), Step2Saved(value, response.data))
        && contractBaseInfo == Some(SavedInfo(old(contractBaseInfo), value))
      ensures response.SaveFailed? ==>
        contractBaseId == old(contractBaseId) && currentStep == old(currentStep)
        && contractBaseInfo == old(contractBaseInfo)
      ensures templentId == old(templentId) && categoryTree == old(categoryTree) && loading == old(loading)
    {
      payload := Merge(value, map["templentId" := templentId, "id" := contractBaseId]);
      if response.Saved? {
        contractBaseId := response.data;
        currentStep := 2;
        contractBaseInfo := Some(Merge(Spread(contractBaseInfo), value));
      }
    }

    /** The last view's submit only logs its value. */
    method HandleStep3Submit()
      ensures currentStep == NextStep(currentStep, Step3Submit)
    {
    }

    method HandleBack()
      modifies this
      ensures currentStep == NextStep(old(currentStep), Back)
      ensures categoryTree == old(categoryTree) && loading == old(loading) && templentId == old(templentId)
      ensures contractBaseId == old(contractBaseId) && contractBaseInfo == old(contractBaseInfo)
    {
      currentStep := currentStep - 1;
    }

    method OnStepsChange(target: int)
      modifies this
      ensures currentStep == NextStep(old(currentStep), Indicator(target))
      ensures categoryTree == old(categoryTree) && loading == old(loading) && templentId == old(templentId)
      ensures contractBaseId == old(contractBaseId) && contractBaseInfo == old(contractBaseInfo)
    {
      if target < currentStep {
        currentStep := target;
      }
    }

    /** One event offered by the page as shown keeps the step among the three views. */
    method Dispatch(e: TableEvent)
      requires Valid() && Offers(View(), e)
      modifies this
      ensures Valid() && currentStep == NextStep(old(currentStep), e)
    {
      StepStaysInRange(currentStep, |categoryTree|, e);
      match e
      case Step1Submit(key) => HandleStep1Submit(key);
      case Step2Saved(value, savedId) => var _ := HandleStep2Submit(value, ContractWizard.Saved(savedId));
      case Step3Submit => HandleStep3Submit();
      case Back => HandleBack();
      case Indicator(target) => OnStepsChange(target);
    }
  }
}
