/**
 * The four-step document wizard page: which step is shown, how the submit handlers, the back
 * button and the step indicator move between steps, and what the page keeps of the contract
 * record (held by the shared contract model).
 */
module ContractWizard {
  import opened Wrappers
  import opened Records

  /** `params.id === "add" ? "create" : "edit"` */
  function ActionType(paramsId: Option<string>): (r: string)
    ensures r == "create" <==> paramsId == Some("add")
    ensures r == "create" || r == "edit"
  {
    if paramsId == Some("add") then "create" else "edit"
  }

  /** What can change the step: a submit from one of the step views, the back button, or a click on the indicator. */
  datatype StepEvent =
    | Step1Submit(templateKey: string)
    | Step2Saved(value: Record, savedId: JsValue)
    | Step3Submit
    | Step4Submit
    | Back
    | Indicator(target: int)

  /** The step after an event. */
  function NextStep(step: int, e: StepEvent): (r: int)
    ensures e.Indicator? ==> r <= step && (r != step ==> r == e.target)
    ensures e.Back? ==> r == step - 1
    ensures (e.Step1Submit? ==> r == 1) && (e.Step2Saved? ==> r == 2)
    ensures (e.Step3Submit? || e.Step4Submit?) ==> r == 3
  {
    match e
    case Step1Submit(_) => 1
    case Step2Saved(_, _) => 2
    case Step3Submit => 3
    case Step4Submit => 3
    case Back => step - 1
    case Indicator(target) => if target < step then target else step
  }

  /** The indicator never moves forward, and only the submit handlers do. */
  lemma OnlySubmitsMoveForward(step: int, e: StepEvent)
    ensures NextStep(step, e) > step ==> e.Step1Submit? || e.Step2Saved? || e.Step3Submit? || e.Step4Submit?
    ensures e.Indicator? ==> NextStep(step, e) <= step
    ensures e.Indicator? && e.target < step ==> NextStep(step, e) == e.target
  {
  }

  /** The step component on screen. */
  datatype StepView = Step1View | Step2View | Step3View | Step4View | NoView

  /** Step 3 needs a truthy contract id; the other steps only need their number. */
  function CurrentView(step: int, contractBaseId: JsValue): (v: StepView)
    ensures v == Step3View <==> step == 2 && JsTruthy(contractBaseId)
    ensures v == NoView <==> !(0 <= step <= 3) || (step == 2 && !JsTruthy(contractBaseId))
  {
    if step == 0 then Step1View
    else if step == 1 then Step2View
    else if step == 2 && JsTruthy(contractBaseId) then Step3View
    else if step == 3 then Step4View
    else NoView
  }

  /**
   * The events a view offers: its own submit, the back button from step 2 on, and the indicator,
   * whose items are the steps 0 to 3.
   */
  predicate Offers(v: StepView, e: StepEvent) {
    match e
    case Step1Submit(_) => v == Step1View
    case Step2Saved(_, _) => v == Step2View
    case Step3Submit => v == Step3View
    case Step4Submit => v == Step4View
    case Back => v == Step2View || v == Step3View || v == Step4View
    case Indicator(target) => 0 <= target <= 3
  }

  /** An event the page offers keeps the step among the four steps and never skips a step forward. */
  lemma StepStaysInRange(step: int, contractBaseId: JsValue, e: StepEvent)
    requires 0 <= step <= 3
    requires Offers(CurrentView(step, contractBaseId), e)
    ensures 0 <= NextStep(step, e) <= 3
    ensures NextStep(step, e) <= step + 1
  {
  }

  /** What the mount effect does: fetch the contract in edit mode with an id; otherwise call `reset`. */
  datatype MountEffect = FetchContractInfo(id: string) | ResetFails

  /**
   * In edit mode with a truthy id the contract is fetched; otherwise the effect calls `reset`, which
   * the contract model does not return, so the call throws.
   */
  function MountEffectOf(paramsId: Option<string>): (m: MountEffect)
    ensures m.FetchContractInfo? <==> paramsId != Some("add") && Truthy(paramsId)
    ensures m.FetchContractInfo? ==> m.id == paramsId.value
  {
    if ActionType(paramsId) == "edit" && Truthy(paramsId) then FetchContractInfo(paramsId.value) else ResetFails
  }

  /** The create page (`/add`) always reaches the failing `reset` call. */
  lemma CreateModeMountFails(paramsId: Option<string>)
    requires ActionType(paramsId) == "create"
    ensures MountEffectOf(paramsId) == ResetFails
  {
  }

  /** The answer to `saveContractBase`: the new id, or a rejected request. */
  datatype SaveResponse = Saved(data: JsValue) | SaveFailed

  /** The save payload: the stored record, then the form values, then the chosen template. */
  function SavePayload(info: Option<Record>, value: Record, templentId: JsValue): (p: Record)
    ensures p.Keys == Spread(info).Keys + value.Keys + {"templentId"}
    ensures p["templentId"] == templentId
    ensures forall k :: k in value && k != "templentId" ==> p[k] == value[k]
    ensures forall k :: k in Spread(info) && k !in value && k != "templentId" ==> p[k] == Spread(info)[k]
  {
    Merge(Merge(Spread(info), value), map["templentId" := templentId])
  }

  /** The page's state together with the state it uses from the contract model. */
  class DocumentWizard {
    const paramsId: Option<string>
    var currentStep: int
    var contractBaseId: JsValue
    /** The contract model's `templentId`. */
    var templentId: JsValue
    /** The contract model's `contractBaseInfo`. */
    var contractBaseInfo: Option<Record>
    /** The routes pushed onto the browser history. */
    var navigations: seq<string>
    /** Whether the mount effect threw (the missing `reset`), so that the page is torn down. */
    var unmounted: bool

    predicate Valid()
      reads this
    {
      0 <= currentStep <= 3
    }

    /**
     * The page as it mounts on the route id `id`. The contract model is shared by the whole app
     * and outlives the page, so the page starts with whatever template id and record it holds:
     * `null` and no record on the first visit, the last contract's otherwise.
     */
    constructor (id: Option<string>, modelTemplentId: JsValue, modelInfo: Option<Record>)
      ensures paramsId == id && currentStep == 0 && contractBaseId == OrNull(id)
      ensures templentId == modelTemplentId && contractBaseInfo == modelInfo
      ensures navigations == [] && !unmounted
      ensures Valid()
    {
      paramsId := id;
      currentStep := 0;
      contractBaseId := OrNull(id);
      templentId := modelTemplentId;
      contractBaseInfo := modelInfo;
      navigations := [];
      unmounted := false;
    }

    function View(): StepView
      reads this
    {
      CurrentView(currentStep, contractBaseId)
    }

    /**
     * The mount effect. Calling the missing `reset` throws inside the effect, and the error
     * tears the page down: it takes no further event. The contract model is not reset, so its
     * template id and record stay as they were.
     */
    method Mount() returns (effect: MountEffect)
      modifies this
      ensures effect == MountEffectOf(paramsId)
      ensures unmounted <==> old(unmounted) || effect == ResetFails
      ensures currentStep == old(currentStep) && contractBaseId == old(contractBaseId)
      ensures templentId == old(templentId) && contractBaseInfo == old(contractBaseInfo)
      ensures navigations == old(navigations)
    {
      if ActionType(paramsId) == "edit" && paramsId.Some? && paramsId.value != "" {
        effect := FetchContractInfo(paramsId.value);
      } else {
        effect := ResetFails;
        unmounted := true;
      }
    }

    /** The contract model's `getContractInfo` answer: the record and its template id are stored. */
    method OnContractInfo(data: Record)
      modifies this
      ensures contractBaseInfo == Some(data) && templentId == Get(data, "templentId")
      ensures currentStep == old(currentStep) && contractBaseId == old(contractBaseId)
      ensures navigations == old(navigations) && unmounted == old(unmounted)
    {
      contractBaseInfo := Some(data);
      templentId := Get(data, "templentId");
    }

    method HandleStep1Submit(value: string)
      modifies this
      ensures templentId == Str(value) && currentStep == NextStep(old(currentStep), Step1Submit(value))
      ensures contractBaseId == old(contractBaseId) && contractBaseInfo == old(contractBaseInfo)
      ensures navigations == old(navigations) && unmounted == old(unmounted)
    {
      templentId := Str(value);
      currentStep := 1;
    }

    /**
     * `handleStep2Submit`: the payload is sent; once it is saved the contract model keeps a copy
     * of it, the step becomes 2 and the returned id the contract id. A rejected save changes nothing.
     */
    method HandleStep2Submit(value: Record, response: SaveResponse) returns (payload: Record)
      modifies this
      ensures payload == SavePayload(old(contractBaseInfo), value, old(templentId))
      ensures response.Saved? ==>
        contractBaseInfo == Some(payload) && currentStep == NextStep(old(currentStep), Step2Saved(value, response.data))
        && contractBaseId == response.data
      ensures response.SaveFailed? ==>
        contractBaseInfo == old(contractBaseInfo) && currentStep == old(currentStep)
        && contractBaseId == old(contractBaseId)
      ensures templentId == old(templentId) && navigations == old(navigations)
      ensures unmounted == old(unmounted)
    {
      payload := Merge(Merge(Spread(contractBaseInfo), value), map["templentId" := templentId]);
      if response.Saved? {
        contractBaseInfo := Some(payload);
        currentStep := 2;
        contractBaseId := response.data;
      }
    }

    method HandleStep3Submit()
      modifies this
      ensures currentStep == NextStep(old(currentStep), Step3Submit)
      ensures contractBaseId == old(contractBaseId) && templentId == old(templentId)
      ensures contractBaseInfo == old(contractBaseInfo) && navigations == old(navigations)
      ensures unmounted == old(unmounted)
    {
      currentStep := 3;
    }

    /** The last step's submit keeps step 3 and navigates to the list page. */
    method HandleStep4Submit()
      modifies this
      ensures currentStep == NextStep(old(currentStep), Step4Submit)
      ensures navigations == old(navigations) + ["/list"]
      ensures contractBaseId == old(contractBaseId) && templentId == old(templentId)
      ensures contractBaseInfo == old(contractBaseInfo) && unmounted == old(unmounted)
    {
      currentStep := 3;
      navigations := navigations + ["/list"];
    }

    method HandleBack()
      modifies this
      ensures currentStep == NextStep(old(currentStep), Back)
      ensures contractBaseId == old(contractBaseId) && templentId == old(templentId)
      ensures contractBaseInfo == old(contractBaseInfo) && navigations == old(navigations)
      ensures unmounted == old(unmounted)
    {
      currentStep := currentStep - 1;
    }

    /** The indicator's `onChange`: only an earlier step is taken. */
    method OnStepsChange(target: int)
      modifies this
      ensures currentStep == NextStep(old(currentStep), Indicator(target))
      ensures contractBaseId == old(contractBaseId) && templentId == old(templentId)
      ensures contractBaseInfo == old(contractBaseInfo) && navigations == old(navigations)
      ensures unmounted == old(unmounted)
    {
      if target < currentStep {
        currentStep := target;
      }
    }

    /**
     * One event offered by the page as shown (a rejected save is no event: it changes nothing)
     * keeps the page valid: whatever the user clicks, the step stays among the four steps. A page
     * torn down by its mount effect shows nothing and offers no event.
     */
    method Dispatch(e: StepEvent)
      requires Valid() && !unmounted && Offers(View(), e)
      modifies this
      ensures Valid() && !unmounted && currentStep == NextStep(old(currentStep), e)
    {
      StepStaysInRange(currentStep, contractBaseId, e);
      match e
      case Step1Submit(key) => HandleStep1Submit(key);
      case Step2Saved(value, savedId) => var _ := HandleStep2Submit(value, Saved(savedId));
      case Step3Submit => HandleStep3Submit();
      case Step4Submit => HandleStep4Submit();
      case Back => HandleBack();
      case Indicator(target) => OnStepsChange(target);
    }
  }
}
