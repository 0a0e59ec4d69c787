/**
 * The generation form of app/generate/page.tsx: the admission gate
 * (`isFormValid`), the prioritised warning (`checkFormAndShowWarning`), the
 * size-to-price table (`handleSizeChange`) and the synchronous part of
 * `generateModel`. Each `useState` hook is a field of `GeneratePage`, and each
 * `setX` call an assignment to it.
 */
module GenerateForm {
  import opened Wrappers

  datatype GenerationMethod = Text | Image

  /** Generations already queued at or above this number close the form. */
  const QueueCapacity: int := 5

  const QueueFullWarning: string := "The queue is currently full. Please try again later."
  const SizeWarning: string := "Please select a size for your model."
  const ColorWarning: string := "Please select a color for your model."
  const PromptWarning: string := "Please enter a text description for your model."
  const ImageWarning: string := "Please upload a reference image for your model."

  // ---------------------------------------------------------------------------
  // String.prototype.trim
  // ---------------------------------------------------------------------------

  /** The code points ECMAScript's `trim` removes: WhiteSpace and LineTerminator. */
  predicate IsWhitespace(c: char)
  {
    var n := c as int;
    (9 <= n <= 13) || n == 0x20 || n == 0xA0 || n == 0x1680
    || (0x2000 <= n <= 0x200A) || n == 0x2028 || n == 0x2029 || n == 0x202F
    || n == 0x205F || n == 0x3000 || n == 0xFEFF
  }

  /** The string with its leading whitespace removed. */
  function TrimStart(s: string): (r: string)
    ensures |r| <= |s| && r == s[|s| - |r|..]
    ensures forall i :: 0 <= i < |s| - |r| ==> IsWhitespace(s[i])
    ensures |r| > 0 ==> !IsWhitespace(r[0])
  {
    if |s| > 0 && IsWhitespace(s[0]) then TrimStart(s[1..]) else s
  }

  /** The string with its trailing whitespace removed. */
  function TrimEnd(s: string): (r: string)
    ensures |r| <= |s| && r == s[..|r|]
    ensures forall i :: |r| <= i < |s| ==> IsWhitespace(s[i])
    ensures |r| > 0 ==> !IsWhitespace(r[|r| - 1])
  {
    if |s| > 0 && IsWhitespace(s[|s| - 1]) then TrimEnd(s[..|s| - 1]) else s
  }

  function Trim(s: string): string
  {
    TrimEnd(TrimStart(s))
  }

  /** `!s.trim()` holds exactly when every character of `s` is whitespace. */
  lemma TrimEmptyIffBlank(s: string)
    ensures Trim(s) == "" <==> forall i :: 0 <= i < |s| ==> IsWhitespace(s[i])
  {
  }

  // ---------------------------------------------------------------------------
  // The admission gate
  // ---------------------------------------------------------------------------

  /** The component state the gate reads. */
  datatype Form = Form(
    queueCount: int,
    selectedSize: string,
    selectedColor: string,
    generationMethod: GenerationMethod,
    prompt: string,
    uploadedImage: Option<string>)

  /** JavaScript truthiness of `uploadedImage`: present and not the empty string. */
  predicate HasImage(image: Option<string>)
  {
    image.Some? && image.value != ""
  }

  /** `isFormValid`, check by check in the source's order. */
  function IsFormValid(f: Form): bool
  {
    if f.queueCount >= QueueCapacity then false
    else if f.selectedSize == "" then false
    else if f.selectedColor == "" then false
    else if f.generationMethod == Text && Trim(f.prompt) == "" then false
    else if f.generationMethod == Image && !HasImage(f.uploadedImage) then false
    else true
  }

  /** What a valid form demands, in plain terms. */
  lemma FormValidIff(f: Form)
    ensures IsFormValid(f) <==>
              && f.queueCount < QueueCapacity
              && f.selectedSize != ""
              && f.selectedColor != ""
              && (f.generationMethod == Text ==>
                    exists i :: 0 <= i < |f.prompt| && !IsWhitespace(f.prompt[i]))
              && (f.generationMethod == Image ==> HasImage(f.uploadedImage))
  {
  }

  /** A full queue closes the form, whatever else it holds. */
  lemma QueueFullRejects(f: Form)
    requires f.queueCount >= QueueCapacity
    ensures !IsFormValid(f)
    ensures FirstFailure(Checks(f)) == Some(QueueFullWarning)
  {
  }

  /** In text mode the image does not matter; in image mode the prompt does not. */
  lemma ModeIgnoresOtherInput(f: Form, image: Option<string>, prompt: string)
    ensures f.generationMethod == Text ==>
              IsFormValid(f.(uploadedImage := image)) == IsFormValid(f)
    ensures f.generationMethod == Image ==>
              IsFormValid(f.(prompt := prompt)) == IsFormValid(f)
  {
  }

  // ---------------------------------------------------------------------------
  // The warning, as the first failing check of a priority list
  // ---------------------------------------------------------------------------

  datatype Check = Check(fails: bool, warning: string)

  /** The checks of `checkFormAndShowWarning`, highest priority first. */
  function Checks(f: Form): (cs: seq<Check>)
    ensures |cs| == 5
  {
    [ Check(f.queueCount >= QueueCapacity, QueueFullWarning),
      Check(f.selectedSize == "", SizeWarning),
      Check(f.selectedColor == "", ColorWarning),
      Check(f.generationMethod == Text && Trim(f.prompt) == "", PromptWarning),
      Check(f.generationMethod == Image && !HasImage(f.uploadedImage), ImageWarning) ]
  }

  /** The warning of the earliest failing check at or after `from`, or none. */
  function FirstFailureFrom(checks: seq<Check>, from: nat): (w: Option<string>)
    requires from <= |checks|
    ensures w.None? <==> forall i :: from <= i < |checks| ==> !checks[i].fails
    ensures w.Some? ==> exists k :: from <= k < |checks| && checks[k].fails
                          && checks[k].warning == w.value
                          && forall i :: from <= i < k ==> !checks[i].fails
    decreases |checks| - from
  {
    if from == |checks| then None
    else if checks[from].fails then Some(checks[from].warning)
    else FirstFailureFrom(checks, from + 1)
  }

  /** The warning of the earliest failing check, or none when every check passes. */
  function FirstFailure(checks: seq<Check>): (w: Option<string>)
    ensures w.None? <==> forall i :: 0 <= i < |checks| ==> !checks[i].fails
    ensures w.Some? ==> exists k :: 0 <= k < |checks| && checks[k].fails
                          && checks[k].warning == w.value
                          && forall i :: 0 <= i < k ==> !checks[i].fails
  {
    FirstFailureFrom(checks, 0)
  }

  /** Only the earliest failing check's warning is reported. */
  lemma WarningIsEarliestFailure(f: Form, k: int)
    requires 0 <= k < 5 && Checks(f)[k].fails
    requires forall i :: 0 <= i < k ==> !Checks(f)[i].fails
    ensures FirstFailure(Checks(f)) == Some(Checks(f)[k].warning)
  {
  }

  /**
   * The priority order written out: a full queue first, then the size, the
   * colour, the text-mode prompt and the image-mode upload.
   */
  lemma {:induction false} WarningPriority(f: Form)
    ensures FirstFailure(Checks(f)) ==
              if f.queueCount >= QueueCapacity then Some(QueueFullWarning)
              else if f.selectedSize == "" then Some(SizeWarning)
              else if f.selectedColor == "" then Some(ColorWarning)
              else if f.generationMethod == Text && Trim(f.prompt) == "" then Some(PromptWarning)
              else if f.generationMethod == Image && !HasImage(f.uploadedImage) then Some(ImageWarning)
              else None
  {
    var cs := Checks(f);
    assert FirstFailureFrom(cs, 4) == if cs[4].fails then Some(ImageWarning) else None;
    assert FirstFailureFrom(cs, 3) == if cs[3].fails then Some(PromptWarning) else FirstFailureFrom(cs, 4);
    assert FirstFailureFrom(cs, 2) == if cs[2].fails then Some(ColorWarning) else FirstFailureFrom(cs, 3);
    assert FirstFailureFrom(cs, 1) == if cs[1].fails then Some(SizeWarning) else FirstFailureFrom(cs, 2);
    assert FirstFailureFrom(cs, 0) == if cs[0].fails then Some(QueueFullWarning) else FirstFailureFrom(cs, 1);
  }

  /** No warning exactly when the form is valid. */
  lemma WarningNoneIffValid(f: Form)
    ensures FirstFailure(Checks(f)) == None <==> IsFormValid(f)
  {
    WarningPriority(f);
  }

  // ---------------------------------------------------------------------------
  // The size-to-price table
  // ---------------------------------------------------------------------------

  const SizePrices: map<string, int> := map["small" := 15, "medium" := 30, "large" := 50]

  /** The `switch` of `handleSizeChange`: the listed sizes have a price, any other is 0. */
  function SizePrice(size: string): (price: int)
    ensures price == if size in SizePrices then SizePrices[size] else 0
    ensures price in {0, 15, 30, 50}
    ensures price != 0 <==> size in {"small", "medium", "large"}
  {
    match size
    case "small" => 15
    case "medium" => 30
    case "large" => 50
    case _ => 0
  }

  // ---------------------------------------------------------------------------
  // The page component
  // ---------------------------------------------------------------------------

  /** Everything `GeneratePage` holds that the modelled handlers read or write. */
  datatype PageState = PageState(
    form: Form,
    price: int,
    validationWarning: Option<string>,
    isGenerating: bool,
    generationProgress: int,
    modelGenerated: bool)

  class GeneratePage {
    var generationMethod: GenerationMethod
    var isGenerating: bool
    var generationProgress: int
    var modelGenerated: bool
    var uploadedImage: Option<string>
    var selectedSize: string
    var selectedColor: string
    var price: int
    var prompt: string
    var queueCount: int
    var validationWarning: Option<string>

    function CurrentForm(): Form
      reads this
    {
      Form(queueCount, selectedSize, selectedColor, generationMethod, prompt, uploadedImage)
    }

    function State(): PageState
      reads this
    {
      PageState(CurrentForm(), price, validationWarning, isGenerating, generationProgress, modelGenerated)
    }

    /** The price always follows the size table; the progress stays a percentage. */
    ghost predicate Valid()
      reads this
    {
      price == SizePrice(selectedSize) && 0 <= generationProgress <= 100
    }

    /** The initial `useState` values. */
    constructor ()
      ensures Valid()
      ensures State() == PageState(Form(0, "", "grey", Text, "", None), 0, None, false, 0, false)
    {
      generationMethod := Text;
      isGenerating := false;
      generationProgress := 0;
      modelGenerated := false;
      uploadedImage := None;
      selectedSize := "";
      selectedColor := "grey";
      price := 0;
      prompt := "";
      queueCount := 0;
      validationWarning := None;
    }

    /** The mount effect that stores the queue count (its random source is a parameter). */
    method LoadQueueCount(count: int)
      requires Valid()
      modifies this
      ensures Valid()
      ensures State() == old(State()).(form := old(CurrentForm()).(queueCount := count))
    {
      queueCount := count;
    }

    /** The "Text Prompt" and "Image Upload" buttons. */
    method SelectGenerationMethod(m: GenerationMethod)
      requires Valid()
      modifies this
      ensures Valid()
      ensures State() == old(State()).(form := old(CurrentForm()).(generationMethod := m),
                                       validationWarning := None)
    {
      generationMethod := m;
      validationWarning := None;
    }

    /** Typing in the prompt box. */
    method ChangePrompt(text: string)
      requires Valid()
      modifies this
      ensures Valid()
      ensures State() == old(State()).(form := old(CurrentForm()).(prompt := text),
                                       validationWarning := None)
    {
      prompt := text;
      validationWarning := None;
    }

    /** The file reader's `onload` in `handleImageUpload`, given the data URL it read. */
    method UploadImage(dataUrl: string)
      requires Valid()
      modifies this
      ensures Valid()
      ensures State() == old(State()).(form := old(CurrentForm()).(uploadedImage := Some(dataUrl)),
                                       validationWarning := None)
    {
      uploadedImage := Some(dataUrl);
      validationWarning := None;
    }

    /** The "Remove Image" button. */
    method RemoveImage()
      requires Valid()
      modifies this
      ensures Valid()
      ensures State() == old(State()).(form := old(CurrentForm()).(uploadedImage := None),
                                       validationWarning := None)
    {
      uploadedImage := None;
      validationWarning := None;
    }

    /** Clicking a colour swatch. */
    method SelectColor(color: string)
      requires Valid()
      modifies this
      ensures Valid()
      ensures State() == old(State()).(form := old(CurrentForm()).(selectedColor := color),
                                       validationWarning := None)
    {
      selectedColor := color;
      validationWarning := None;
    }

    /** `handleSizeChange`: records the size, clears the warning and prices the size. */
    method HandleSizeChange(size: string)
      requires Valid()
      modifies this
      ensures Valid()
      ensures State() == old(State()).(form := old(CurrentForm()).(selectedSize := size),
                                       price := SizePrice(size), validationWarning := None)
      ensures price in {0, 15, 30, 50}
    {
      selectedSize := size;
      validationWarning := None;
      match size {
        case "small" => price := 15;
        case "medium" => price := 30;
        case "large" => price := 50;
        case _ => price := 0;
      }
    }

    /**
     * `checkFormAndShowWarning`: sets the warning of the first failing check,
     * or clears it; the warning is then none exactly when the form is valid.
     */
    method CheckFormAndShowWarning()
      requires Valid()
      modifies this
      ensures Valid()
      ensures State() == old(State()).(validationWarning := FirstFailure(Checks(old(CurrentForm()))))
      ensures validationWarning.None? <==> IsFormValid(CurrentForm())
    {
      WarningNoneIffValid(CurrentForm());
      WarningPriority(CurrentForm());
      if queueCount >= QueueCapacity {
        validationWarning := Some(QueueFullWarning);
        return;
      }
      if selectedSize == "" {
        validationWarning := Some(SizeWarning);
        return;
      }
      if selectedColor == "" {
        validationWarning := Some(ColorWarning);
        return;
      }
      if generationMethod == Text && Trim(prompt) == "" {
        validationWarning := Some(PromptWarning);
        return;
      }
      if generationMethod == Image && !HasImage(uploadedImage) {
        validationWarning := Some(ImageWarning);
        return;
      }
      validationWarning := None;
    }

    /**
     * The synchronous part of `generateModel`: an invalid form only gets its
     * warning; a valid one clears the warning and starts generating.
     */
    method GenerateModel()
      requires Valid()
      modifies this
      ensures Valid()
      ensures !old(IsFormValid(CurrentForm())) ==>
                State() == old(State()).(validationWarning := FirstFailure(Checks(old(CurrentForm()))))
                && validationWarning.Some?
      ensures old(IsFormValid(CurrentForm())) ==>
                State() == old(State()).(validationWarning := None, isGenerating := true,
                                         generationProgress := 0, modelGenerated := false)
    {
      if !IsFormValid(CurrentForm()) {
        CheckFormAndShowWarning();
        return;
      }
      validationWarning := None;
      isGenerating := true;
      generationProgress := 0;
      modelGenerated := false;
    }
  }
}
