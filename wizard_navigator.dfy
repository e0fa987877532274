/** The older, linear pipeline form: a single index over four tab labels, stepped by the
    previous/next buttons; only the form of the current label is displayed. */
module WizardNavigator {
  import opened Wrappers

  datatype FormLabel = FormLabel(title: string, name: string)

  /** `formLabelList`, in wizard order. */
  const Labels: seq<FormLabel> := [
    FormLabel("AI能力", "ai"), FormLabel("触发条件", "trigger"),
    FormLabel("安全能力", "safety"), FormLabel("输出处理", "output")]

  /** The four forms the component renders, each shown when its name is the current label's. */
  const FormNames: seq<string> := ["ai", "trigger", "safety", "output"]

  /** `addFormLabelIndex` on an index value. */
  function AddStep(index: int): (r: int)
    ensures 0 <= index < |Labels| ==> 0 <= r < |Labels|
    ensures index < |Labels| - 1 ==> r == index + 1
    ensures index >= |Labels| - 1 ==> r == index
  {
    if index < |Labels| - 1 then index + 1 else index
  }

  /** `reduceFormLabelIndex` on an index value. */
  function ReduceStep(index: int): (r: int)
    ensures 0 <= index < |Labels| ==> 0 <= r < |Labels|
    ensures index > 0 ==> r == index - 1
    ensures index <= 0 ==> r == index
  {
    if index > 0 then index - 1 else index
  }

  datatype Step = Add | Reduce

  /** The index after a run of button presses. */
  function Run(index: int, steps: seq<Step>): int
    decreases |steps|
  {
    if steps == [] then index
    else Run(if steps[0].Add? then AddStep(index) else ReduceStep(index), steps[1..])
  }

  /** Whatever the buttons pressed, the index stays a position of the label list. */
  lemma {:induction false} RunStaysInBounds(index: int, steps: seq<Step>)
    requires 0 <= index < |Labels|
    ensures 0 <= Run(index, steps) < |Labels|
    decreases |steps|
  {
    if steps != [] {
      RunStaysInBounds(if steps[0].Add? then AddStep(index) else ReduceStep(index), steps[1..]);
    }
  }

  /** From any index short of the last, next followed by previous comes back. */
  lemma AddThenReduce(index: int)
    requires 0 <= index < |Labels| - 1
    ensures Run(index, [Add, Reduce]) == index
  {
    var steps := [Add, Reduce];
    assert steps[1..] == [Reduce] && steps[1..][1..] == [];
  }

  /** The component's state: `nowFormIndex` over the fixed label list. */
  class Navigator {
    var nowFormIndex: int

    ghost predicate Valid()
      reads this
    {
      0 <= nowFormIndex < |Labels|
    }

    /** `useState<number>(0)`. */
    constructor ()
      ensures Valid() && nowFormIndex == 0
    {
      nowFormIndex := 0;
    }

    /** `getNowFormLabel`. */
    function NowFormLabel(): FormLabel
      reads this
      requires Valid()
    {
      Labels[nowFormIndex]
    }

    /** `getPreFormLabel`: absent exactly at the first label. */
    function PreFormLabel(): (r: Option<FormLabel>)
      reads this
      requires Valid()
      ensures r.None? <==> nowFormIndex == 0
      ensures r.Some? ==> r.value == Labels[nowFormIndex - 1]
    {
      if nowFormIndex > 0 then Some(Labels[nowFormIndex - 1]) else None
    }

    /** `getNextFormLabel`: absent exactly at the last label. */
    function NextFormLabel(): (r: Option<FormLabel>)
      reads this
      requires Valid()
      ensures r.None? <==> nowFormIndex == |Labels| - 1
      ensures r.Some? ==> r.value == Labels[nowFormIndex + 1]
    {
      if nowFormIndex < |Labels| - 1 then Some(Labels[nowFormIndex + 1]) else None
    }

    /** The `display` style of the form named `formName`. */
    predicate Displayed(formName: string)
      reads this
      requires Valid()
    {
      NowFormLabel().name == formName
    }

    /** Exactly one of the four forms is displayed: the one at the current index. */
    lemma ExactlyOneDisplayed()
      requires Valid()
      ensures forall j :: 0 <= j < |FormNames| ==> (Displayed(FormNames[j]) <==> j == nowFormIndex)
    {
    }

    /** The previous button is disabled exactly when there is no previous label. */
    predicate PrevDisabled()
      reads this
      requires Valid()
    {
      PreFormLabel().None?
    }

    /** The next button is disabled exactly when there is no next label. */
    predicate NextDisabled()
      reads this
      requires Valid()
    {
      NextFormLabel().None?
    }

    /** The buttons are disabled at the two ends of the wizard and never both. */
    lemma ButtonsAtEnds()
      requires Valid()
      ensures PrevDisabled() <==> nowFormIndex == 0
      ensures NextDisabled() <==> nowFormIndex == |Labels| - 1
      ensures !(PrevDisabled() && NextDisabled())
    {
    }

    /** The next button's action. */
    method AddFormLabelIndex()
      requires Valid()
      modifies this
      ensures Valid()
      ensures nowFormIndex == AddStep(old(nowFormIndex))
      ensures old(NextFormLabel()).Some? ==> NowFormLabel() == old(NextFormLabel()).value
    {
      if nowFormIndex < |Labels| - 1 {
        nowFormIndex := nowFormIndex + 1;
      }
    }

    /** The previous button's action. */
    method ReduceFormLabelIndex()
      requires Valid()
      modifies this
      ensures Valid()
      ensures nowFormIndex == ReduceStep(old(nowFormIndex))
      ensures old(PreFormLabel()).Some? ==> NowFormLabel() == old(PreFormLabel()).value
    {
      if nowFormIndex > 0 {
        nowFormIndex := nowFormIndex - 1;
      }
    }
  }
}
