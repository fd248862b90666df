/**
 * The field editor of `ProductForm.tsx`: the validation effect, the
 * per-field "touched" record that gates which errors are shown, and the
 * effect that clears the record when the form has been emptied.
 */
module ProductForm {
  import opened Common
  import opened Text

  /** The form's fields. The category is stored as a free string. */
  datatype FormData = FormData(title: string, category: string, tags: string)

  const EmptyForm: FormData := FormData("", "", "")

  /** The options of the category select, besides the disabled empty one. */
  const Categories: seq<string> := ["T-shirt", "Dress", "Hoodie", "Jeans", "Shoes", "Accessory"]

  /** The three named inputs (`name="title"`, `"category"`, `"tags"`). */
  datatype Field = Title | Category | Tags

  function Get(d: FormData, f: Field): string
  {
    match f
    case Title => d.title
    case Category => d.category
    case Tags => d.tags
  }

  const TitleRequired: string := "Product title is required"
  const TitleTooShort: string := "Product title should be at least 3 characters"
  const CategoryRequired: string := "Please select a category"

  /** One optional message per field; `None` is a field without an error. */
  datatype ValidationErrors = ValidationErrors(title: Option<string>, category: Option<string>, tags: Option<string>)

  function ErrorFor(e: ValidationErrors, f: Field): Option<string>
  {
    match f
    case Title => e.title
    case Category => e.category
    case Tags => e.tags
  }

  /**
   * The validation effect. An empty string is falsy, and the length of the
   * trimmed title is counted in UTF-16 code units as JavaScript does.
   */
  function Validate(d: FormData): (e: ValidationErrors)
    ensures e.title == Some(TitleRequired) <==> AllWhitespace(d.title)
    ensures e.title == Some(TitleTooShort) <==> Trim(d.title) != [] && Utf16Length(Trim(d.title)) < 3
    ensures e.title == None <==> Utf16Length(Trim(d.title)) >= 3
    ensures e.title.Some? ==> e.title == Some(TitleRequired) || e.title == Some(TitleTooShort)
    ensures e.category == Some(CategoryRequired) <==> d.category == ""
    ensures e.category == None <==> d.category != ""
    ensures e.tags == None
  {
    var t := Trim(d.title);
    var title := if t == [] then Some(TitleRequired) else if Utf16Length(t) < 3 then Some(TitleTooShort) else None;
    var category := if d.category == "" then Some(CategoryRequired) else None;
    ValidationErrors(title, category, None)
  }

  /** A title of three or more visible characters is accepted, whatever whitespace surrounds it. */
  lemma PaddedTitleAccepted(pad1: string, core: string, pad2: string, category: string)
    requires AllWhitespace(pad1) && AllWhitespace(pad2)
    requires |core| >= 3 && !IsWhitespace(core[0]) && !IsWhitespace(core[|core| - 1])
    ensures Validate(FormData(pad1 + core + pad2, category, "")).title == None
  {
    TrimPadded(pad1, core, pad2);
  }

  /** Any option of the category select passes the category rule. */
  lemma ListedCategoryAccepted(d: FormData)
    requires d.category in Categories
    ensures Validate(d).category == None
  {
  }

  /**
   * The `touched` record of the component. An error is shown only for a
   * touched field.
   */
  class TouchedFields {
    var title: bool
    var category: bool
    var tags: bool

    constructor ()
      ensures !title && !category && !tags
    {
      title, category, tags := false, false, false;
    }

    /** `touched[field]`: the flag of that field and of no other. */
    function IsTouched(f: Field): (r: bool)
      reads this
      ensures r <==> (f == Title && title) || (f == Category && category) || (f == Tags && tags)
    {
      match f
      case Title => title
      case Category => category
      case Tags => tags
    }

    /**
     * `handleBlur(f)`, and the touched half of `handleChange` and of the tags
     * input's `onChange`: `touched[f] = true`, the other flags kept.
     */
    method MarkTouched(f: Field)
      modifies this
      ensures IsTouched(f)
      ensures forall g :: g != f ==> IsTouched(g) == old(IsTouched(g))
      ensures title == (old(title) || f == Title)
      ensures category == (old(category) || f == Category)
      ensures tags == (old(tags) || f == Tags)
    {
      match f
      case Title => title := true;
      case Category => category := true;
      case Tags => tags := true;
    }

    /** The reset effect: when title, category and tags are all empty, every flag is cleared. */
    method ResetIfCleared(d: FormData)
      modifies this
      ensures d == EmptyForm ==> !title && !category && !tags
      ensures d != EmptyForm ==> title == old(title) && category == old(category) && tags == old(tags)
    {
      if d.title == "" && d.category == "" && d.tags == "" {
        title, category, tags := false, false, false;
      }
    }

    /**
     * `shouldShowError(f)`: `touched[f] && errors[f]`. Every message is a
     * non-empty string, so the result is truthy exactly when both are set.
     */
    function ShownError(f: Field, e: ValidationErrors): (r: Option<string>)
      reads this
      ensures r.Some? <==> IsTouched(f) && ErrorFor(e, f).Some?
      ensures r.Some? ==> r == ErrorFor(e, f)
    {
      if IsTouched(f) then ErrorFor(e, f) else None
    }
  }

  /** The tags field never shows an error, touched or not. */
  lemma TagsNeverShown(t: TouchedFields, d: FormData)
    ensures t.ShownError(Tags, Validate(d)) == None
  {
  }
}
