/**
 * The page component of `page.tsx`: the single owner of the form fields, the
 * staged images, the submitting/success flags and the toast. Each handler and
 * each timer expiry is an explicit event, a method of `Home`.
 *
 * `Home` also holds the `touched` record of its `ProductForm` child, so that
 * the events the user produces in the form (an edit, a blur) and the reset
 * effect the child runs after every change of `formData` can be followed
 * together with the page state they act on.
 */
module Page {
  import opened Common
  import opened ImageUploader
  import opened ProductForm
  import opened Text

  /** `MAX_IMAGES`, passed to the uploader as `maxImages`. */
  const MaxImages: nat := 3

  const NoImageMessage: string := "At least one image is required"
  const SuccessMessage: string := "Product added successfully!"

  /** The toast: one message at a time, replaced rather than queued. */
  datatype ToastData = ToastData(message: string, isError: bool, isOpen: bool)

  const ClosedToast: ToastData := ToastData("", false, false)

  /** `{ ...prev, [name]: value }`: one field set, the other two kept. */
  function SetField(d: FormData, f: Field, value: string): (r: FormData)
    ensures Get(r, f) == value
    ensures forall g :: g != f ==> Get(r, g) == Get(d, g)
  {
    match f
    case Title => d.(title := value)
    case Category => d.(category := value)
    case Tags => d.(tags := value)
  }

  /**
   * The toast after `handleImageError` has been called once per message, in
   * order: each call replaces the toast, so the last message stays open.
   */
  function ToastAfterErrors(toast: ToastData, errors: seq<string>): (t: ToastData)
    ensures errors == [] ==> t == toast
    ensures errors != [] ==> t == ToastData(errors[|errors| - 1], true, true)
    decreases |errors|
  {
    if errors == [] then toast
    else ToastAfterErrors(ToastData(errors[0], true, true), errors[1..])
  }

  /** The page state as one value. */
  datatype PageState = PageState(
    formData: FormData,
    images: seq<File>,
    isSubmitting: bool,
    isSuccess: bool,
    toast: ToastData)

  class Home {
    var formData: FormData
    var images: seq<File>
    var isSubmitting: bool
    var isSuccess: bool
    var toast: ToastData
    /** The `touched` record of the `ProductForm` child. */
    const touched: TouchedFields

    /**
     * The page's invariant: the two flags are only ever set and cleared
     * together, and the list stays within `MaxImages`. The latter holds for
     * the list the uploader hands back (`ChooseFiles`, `RemoveImage`,
     * `ClearAllImages`); `HandleImagesChange` itself accepts any list and
     * keeps the invariant only for one within `MaxImages`.
     */
    ghost predicate Valid(): (r: bool)
      reads this
      ensures r ==> (isSubmitting ==> isSuccess) && (isSuccess ==> isSubmitting)
      ensures r ==> (ImageUploader.UploadDisabled(images, MaxImages) <==> |images| == MaxImages)
    {
      isSubmitting == isSuccess && |images| <= MaxImages
    }

    function State(): PageState
      reads this
    {
      PageState(formData, images, isSubmitting, isSuccess, toast)
    }

    constructor ()
      ensures Valid()
      ensures State() == PageState(EmptyForm, [], false, false, ClosedToast)
      ensures fresh(touched) && !touched.title && !touched.category && !touched.tags
    {
      formData := EmptyForm;
      images := [];
      isSubmitting, isSuccess := false, false;
      toast := ClosedToast;
      touched := new TouchedFields();
    }

    /** `handleFormChange`: the named field takes the new value. */
    method HandleFormChange(f: Field, value: string)
      modifies this
      ensures State() == old(State()).(formData := SetField(old(formData), f, value))
    {
      formData := SetField(formData, f, value);
    }

    /** `handleTagsChange`: only the tags change. */
    method HandleTagsChange(value: string)
      modifies this
      ensures State() == old(State()).(formData := old(formData).(tags := value))
    {
      formData := formData.(tags := value);
    }

    /** `handleImagesChange`: the list is replaced wholesale. */
    method HandleImagesChange(newImages: seq<File>)
      modifies this
      ensures State() == old(State()).(images := newImages)
      ensures old(Valid()) && |newImages| <= MaxImages ==> Valid()
    {
      images := newImages;
    }

    /** `handleToast`: open the toast with the given message and kind. */
    method HandleToast(message: string, isError: bool)
      modifies this
      ensures State() == old(State()).(toast := ToastData(message, isError, true))
    {
      toast := ToastData(message, isError, true);
    }

    /** `handleImageError`: an error toast. */
    method HandleImageError(message: string)
      modifies this
      ensures State() == old(State()).(toast := ToastData(message, true, true))
    {
      HandleToast(message, true);
    }

    /**
     * The toast closes: its close button, its own dismiss timer, or the timer
     * `handleToast` arms. All three restore the closed toast.
     */
    method CloseToast()
      modifies this
      ensures State() == old(State()).(toast := ClosedToast)
    {
      toast := ClosedToast;
    }

    /**
     * `disabled={isSubmitting}` on the submit button: in every reachable
     * state it is disabled exactly while a success is pending.
     */
    function SubmitDisabled(): (r: bool)
      reads this
      ensures Valid() ==> (r <==> isSuccess)
    {
      isSubmitting
    }

    /**
     * `handleSubmit`. Without images: an error toast and nothing else.
     * Otherwise both flags are set and the success toast opens. The title and
     * the category are not checked.
     */
    method HandleSubmit()
      requires Valid()
      modifies this
      ensures Valid()
      ensures old(images) == [] ==>
        State() == old(State()).(toast := ToastData(NoImageMessage, true, true))
      ensures old(images) != [] ==>
        State() == old(State()).(isSubmitting := true, isSuccess := true,
                                 toast := ToastData(SuccessMessage, false, true))
    {
      if |images| == 0 {
        HandleToast(NoImageMessage, true);
        return;
      }
      isSubmitting := true;
      HandleToast(SuccessMessage, false);
      isSuccess := true;
    }

    /**
     * The timer armed when `isSuccess` becomes true fires: fields, images and
     * both flags are reset. The form is then empty, so the child's reset
     * effect clears every touched flag. Without a pending success no timer is
     * armed, and nothing happens.
     */
    method SuccessTimerFired()
      requires Valid()
      modifies this, touched
      ensures Valid()
      ensures old(isSuccess) ==>
        && State() == PageState(EmptyForm, [], false, false, old(toast))
        && !touched.title && !touched.category && !touched.tags
      ensures !old(isSuccess) ==> State() == old(State())
      ensures !old(isSuccess) ==>
        (touched.title == old(touched.title) && touched.category == old(touched.category)
         && touched.tags == old(touched.tags))
    {
      if isSuccess {
        isSuccess := false;
        isSubmitting := false;
        formData := EmptyForm;
        images := [];
        touched.ResetIfCleared(formData);
      }
    }

    /**
     * The error the form displays under field `f` (`shouldShowError` and
     * `errors[f]`): the validation error of the current data, once touched.
     */
    function ShownError(f: Field): (r: Option<string>)
      reads this, touched
      ensures r.Some? <==> touched.IsTouched(f) && ErrorFor(Validate(formData), f).Some?
      ensures r.Some? ==> r == ErrorFor(Validate(formData), f)
    {
      touched.ShownError(f, Validate(formData))
    }

    /**
     * An edit in the form (`handleChange`, or the tags input's `onChange`):
     * the page's handler stores the value, the field is marked touched, and
     * the reset effect then runs on the new form data. Emptying the last
     * non-empty field therefore clears every touched flag, this one included.
     */
    method EditField(f: Field, value: string)
      modifies this, touched
      ensures State() == old(State()).(formData := SetField(old(formData), f, value))
      ensures formData == EmptyForm ==> !touched.title && !touched.category && !touched.tags
      ensures formData != EmptyForm ==>
        && touched.title == (old(touched.title) || f == Title)
        && touched.category == (old(touched.category) || f == Category)
        && touched.tags == (old(touched.tags) || f == Tags)
    {
      if f == Tags {
        HandleTagsChange(value);
      } else {
        HandleFormChange(f, value);
      }
      touched.MarkTouched(f);
      touched.ResetIfCleared(formData);
    }

    /** `handleBlur`: the field is marked touched, nothing else changes. */
    method BlurField(f: Field)
      modifies touched
      ensures touched.title == (old(touched.title) || f == Title)
      ensures touched.category == (old(touched.category) || f == Category)
      ensures touched.tags == (old(touched.tags) || f == Tags)
    {
      touched.MarkTouched(f);
    }

    /**
     * The text of the overlay drawn over the form while `isSubmitting`:
     * "Success!" or "Uploading...", and no overlay otherwise.
     */
    function OverlayText(): (r: Option<string>)
      reads this
      ensures r.Some? <==> isSubmitting
      ensures Valid() ==> r != Some("Uploading...")
    {
      if isSubmitting then Some(if isSuccess then "Success!" else "Uploading...") else None
    }

    /** The uploader's gate, with `maxImages = MaxImages`. */
    function UploadDisabled(): (r: bool)
      reads this
      ensures Valid() ==> (r <==> |images| == MaxImages)
    {
      ImageUploader.UploadDisabled(images, MaxImages)
    }

    /**
     * Files picked in the uploader: the page receives the uploader's
     * `onImagesChange` (when the batch is accepted) and one `onImageError`
     * per message.
     */
    method ChooseFiles(files: Option<seq<File>>)
      requires Valid()
      modifies this
      ensures Valid()
      ensures var c := FileChange(old(images), files, MaxImages);
        State() == old(State()).(images := c.images, toast := ToastAfterErrors(old(toast), c.errors))
    {
      var c := FileChange(images, files, MaxImages);
      if c.images != images {
        HandleImagesChange(c.images);
      }
      ReportImageErrors(c.errors);
    }

    /** `handleImageError` called once per message, in order. */
    method ReportImageErrors(errors: seq<string>)
      modifies this
      ensures State() == old(State()).(toast := ToastAfterErrors(old(toast), errors))
    {
      var k := 0;
      while k < |errors|
        invariant 0 <= k <= |errors|
        invariant State() == old(State()).(toast := if k == 0 then old(toast) else ToastData(errors[k - 1], true, true))
      {
        HandleImageError(errors[k]);
        k := k + 1;
      }
    }

    /** The remove button of preview `index` in the uploader. */
    method RemoveImage(index: int)
      requires Valid()
      modifies this
      ensures Valid()
      ensures State() == old(State()).(images := RemoveIndex(old(images), index))
    {
      HandleImagesChange(RemoveIndex(images, index));
    }

    /** The uploader's "Clear all Images" button. */
    method ClearAllImages()
      requires Valid()
      modifies this
      ensures Valid()
      ensures State() == old(State()).(images := [])
    {
      HandleImagesChange([]);
    }
  }

  /** The title "Hi" is two code units long, one short of the minimum. */
  lemma TwoCharacterTitleTooShort(d: FormData)
    requires d.title == "Hi"
    ensures Validate(d).title == Some(TitleTooShort)
  {
    assert Trim("Hi") == "Hi" by { TrimPadded("", "Hi", ""); }
  }

  /**
   * Submitting with one image, a category and the two-character title "Hi"
   * succeeds: the submit handler does not look at the title, although the
   * form is showing the length error under the (touched) title field at the
   * same time. Both required inputs are non-empty, so the browser lets the
   * submit through.
   */
  method ShortTitleSubmit() returns (shown: ToastData, submitting: bool, titleError: Option<string>)
    ensures shown == ToastData(SuccessMessage, false, true)
    ensures submitting
    ensures titleError == Some(TitleTooShort)
  {
    var home := new Home();
    var hat := File("hat.png", "image/png");
    OneAllowedFileIsKept(hat);
    home.ChooseFiles(Some([hat]));
    assert home.images == [hat];
    home.EditField(Title, "Hi");
    assert home.formData == FormData("Hi", "", "");
    home.EditField(Category, "Hoodie");
    assert home.formData == FormData("Hi", "Hoodie", "");
    home.HandleSubmit();
    TwoCharacterTitleTooShort(home.formData);
    shown, submitting, titleError := home.toast, home.isSubmitting, home.ShownError(Title);
  }

  /**
   * A full cycle: with no image, submit only raises the error toast; after an
   * image is added, submit succeeds, and the success timer empties the fields
   * and the images, clears both flags and every touched flag.
   */
  method SubmitThenReset() returns (first: ToastData, afterReset: PageState, anyTouched: bool)
    ensures first == ToastData(NoImageMessage, true, true)
    ensures afterReset == PageState(EmptyForm, [], false, false, ToastData(SuccessMessage, false, true))
    ensures !anyTouched
  {
    var home := new Home();
    home.EditField(Title, "Nice Hat");
    home.EditField(Category, "Hoodie");
    home.HandleSubmit();
    first := home.toast;
    var hat := File("hat.gif", "image/gif");
    OneAllowedFileIsKept(hat);
    home.ChooseFiles(Some([hat]));
    home.HandleSubmit();
    home.SuccessTimerFired();
    afterReset := home.State();
    anyTouched := home.touched.title || home.touched.category || home.touched.tags;
  }
}
