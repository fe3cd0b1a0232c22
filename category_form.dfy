/** The category editor of src/components/CategoryForm.tsx: a name field seeded
    from the category being edited (if any), a pass-through submit, and the
    button's state and label. */
module CategoryForm {
  import opened Wrappers
  import opened Entities
  import Text

  /** `initialData?.name || ""`. */
  function InitialName(initialData: Option<Category>): (name: string)
    ensures initialData.None? ==> name == ""
    ensures initialData.Some? ==> name == initialData.value.name
  {
    if initialData.Some? && initialData.value.name != "" then initialData.value.name else ""
  }

  /** The button's text. */
  function ButtonLabel(isSubmitting: bool, initialData: Option<Category>): (caption: string)
    ensures isSubmitting ==> caption == "Saving..."
    ensures !isSubmitting && initialData.Some? ==> caption == "Update Category"
    ensures !isSubmitting && initialData.None? ==> caption == "Create Category"
  {
    if isSubmitting then "Saving..."
    else (if initialData.Some? then "Update" else "Create") + " Category"
  }

  /** The form's state. */
  class CategoryFormState {
    var name: string

    constructor (initialData: Option<Category>)
      ensures name == InitialName(initialData)
    {
      name := InitialName(initialData);
    }

    /** The effect on a new `initialData`: the name is reseeded the same way. */
    method OnInitialDataChange(initialData: Option<Category>)
      modifies this
      ensures name == InitialName(initialData)
    {
      name := InitialName(initialData);
    }

    /** The name field's `onChange`. */
    method OnChange(value: string)
      modifies this
      ensures name == value
    {
      name := value;
    }

    /** `handleSubmit`: the name goes to `onSubmit` as typed, untrimmed, and the form keeps it. */
    method HandleSubmit() returns (submitted: string)
      ensures submitted == name
    {
      submitted := name;
    }
  }
}
