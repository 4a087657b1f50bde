/**
 * plmfit/models/pretrained_models.py, the bookkeeping fields every language-model wrapper
 * keeps: the task-specific `head`, its `head_name` and the parameter count
 * `no_parameters`, as `concat_task_specific_head` updates them and as the first step of
 * `fine_tune` checks them.
 */
module LanguageModels {
  import opened Results
  import opened Utils

  datatype ModelFamily = ProGenModel | ESMModel | AnkhModel

  /** A head module: its class name (`head.__class__.__name__`) and its parameters. */
  datatype HeadModule = HeadModule(className: string, params: seq<Parameter>)

  /** The `head` attribute: never assigned (declared by annotation only, so reading it
      raises), or assigned a module or None. */
  datatype HeadSlot = Unset | Held(attached: Option<HeadModule>)

  /** How `fine_tune` goes on after its first step: into training with the given head
      label in the logger name, or, for Ankh, which only inherits the abstract method,
      returning at once. */
  /** What `py_model` holds: the model as loaded, or, once Ankh's `extract_embeddings` has
      run `self.py_model = self.py_model.encoder`, only its encoder stack, which has no
      `encoder` attribute of its own. */
  datatype Backbone = WholeModel | EncoderStack

  datatype FineTuneStart = Trains(headLabel: string) | ReturnsNone

  const NoHead: Error := AssertionError("Task specific head haven't specified.")

  /** A ProGen, ESM or Ankh wrapper, reduced to the fields the head bookkeeping touches. */
  class LanguageModel {
    const family: ModelFamily
    var head: HeadSlot
    var headName: string
    var noParameters: nat
    var pyModel: Backbone
    /** The parameters `no_parameters` has counted so far. */
    ghost var counted: seq<Parameter>

    /** `no_parameters` is the element count of the parameters counted so far. */
    ghost predicate Valid()
      reads this
    {
      noParameters == TotalNumel(counted)
    }

    /** `__init__`: the loaded model, `head_name = 'none'`, no head, and the backbone's
        parameters counted. */
    constructor (family: ModelFamily, backbone: seq<Parameter>)
      ensures Valid() && this.family == family && head == Unset && headName == "none"
      ensures counted == backbone && pyModel == WholeModel
    {
      this.family := family;
      pyModel := WholeModel;
      head := Unset;
      headName := "none";
      counted := backbone;
      noParameters := TotalNumel(backbone);
    }

    /** `concat_task_specific_head(head)`. ProGen stores the head and its class name, then
        adds the head's parameter count, which fails for None after the first two
        assignments. ESM and Ankh only inherit the abstract method, whose body does
        nothing. */
    method ConcatTaskSpecificHead(h: Option<HeadModule>) returns (r: Result<()>)
      requires Valid()
      modifies this
      ensures Valid() && pyModel == old(pyModel)
      ensures family == ProGenModel ==>
        && head == Held(h)
        && headName == (if h.Some? then h.value.className else "NoneType")
        && (h.Some? ==> r.Ok? && counted == old(counted) + h.value.params
                        && noParameters == old(noParameters) + TotalNumel(h.value.params))
        && (h.None? ==> r == Err(AttributeError("named_parameters")) && counted == old(counted)
                        && noParameters == old(noParameters))
      ensures family != ProGenModel ==> r.Ok? && unchanged(this)
    {
      if family != ProGenModel {
        return Ok(());
      }
      head := Held(h);
      headName := if h.Some? then h.value.className else "NoneType";
      if h.None? {
        return Err(AttributeError("named_parameters"));
      }
      var s := GetParameters(h.value.params, false);
      TotalNumelAppend(counted, h.value.params);
      noParameters := noParameters + s;
      counted := counted + h.value.params;
      r := Ok(());
    }

    /** The first step of `fine_tune`: the assertion that a head is attached (ProGen line
        297, ESM line 444), after reading `self.head`, which raises while it was never
        assigned; then the logger name, which for ESM reads the never-assigned
        `head_type`. */
    method FineTuneGuard() returns (r: Result<FineTuneStart>)
      ensures family == AnkhModel ==> r == Ok(ReturnsNone)
      ensures family != AnkhModel && head == Unset ==> r == Err(AttributeError("head"))
      ensures family != AnkhModel && head == Held(None) ==> r == Err(NoHead)
      ensures family == ProGenModel && head.Held? && head.attached.Some? ==> r == Ok(Trains(headName))
      ensures family == ESMModel && head.Held? && head.attached.Some? ==> r == Err(AttributeError("head_type"))
    {
      if family == AnkhModel {
        return Ok(ReturnsNone);
      }
      if head == Unset {
        return Err(AttributeError("head"));
      }
      if head.attached.None? {
        return Err(NoHead);
      }
      if family == ESMModel {
        return Err(AttributeError("head_type"));
      }
      return Ok(Trains(headName));
    }
  }

  /** Attaching a head and then fine-tuning: ProGen reaches training under the head's class
      name with the head's parameters counted; ESM never does, since its concat stores
      nothing and `self.head` stays unassigned; Ankh's `fine_tune` does nothing. */
  method AttachThenFineTune(family: ModelFamily, backbone: seq<Parameter>, h: HeadModule)
    returns (m: LanguageModel, r: Result<FineTuneStart>)
    ensures m.noParameters == (if family == ProGenModel then TotalNumel(backbone + h.params) else TotalNumel(backbone))
    ensures family == ProGenModel ==> r == Ok(Trains(h.className))
    ensures family == ESMModel ==> r == Err(AttributeError("head"))
    ensures family == AnkhModel ==> r == Ok(ReturnsNone)
  {
    m := new LanguageModel(family, backbone);
    var attached := m.ConcatTaskSpecificHead(Some(h));
    r := m.FineTuneGuard();
  }

  /** Fine-tuning a freshly built model fails for ProGen and ESM before anything else
      happens, because no head was ever assigned. */
  method FineTuneWithoutHead(family: ModelFamily, backbone: seq<Parameter>) returns (r: Result<FineTuneStart>)
    ensures family != AnkhModel ==> r == Err(AttributeError("head"))
    ensures family == AnkhModel ==> r == Ok(ReturnsNone)
  {
    var m := new LanguageModel(family, backbone);
    r := m.FineTuneGuard();
  }
}
