/** How the category model cleans its input before handing it to the
    database: the record built by `save` and the update built by
    `findByIdAndUpdate`. */
module Categories {
  import opened Wrappers
  import opened Text
  import opened Json

  /** The submitted fields; `None` is `undefined`. */
  datatype CategoryInput = CategoryInput(name: Option<string>, description: Option<string>)

  /** The fields of the new category document. */
  datatype NewCategory = NewCategory(name: string, description: string)

  /** The document `save` builds; `None` when `name` is missing, where
      `categoryData.name.trim()` throws before anything is built. */
  function SaveFields(input: CategoryInput): (r: Option<NewCategory>)
    ensures r.None? <==> input.name.None?
    ensures r.Some? ==> r.value.name == Trim(input.name.value)
    ensures r.Some? && TruthyText(input.description) ==> r.value.description == Trim(input.description.value)
    ensures r.Some? && !TruthyText(input.description) ==> r.value.description == ""
  {
    if input.name.None? then None
    else Some(NewCategory(
      Trim(input.name.value),
      if TruthyText(input.description) then Trim(input.description.value) else ""))
  }

  /** `cleanUpdateData`: the name only when it is truthy, the description
      whenever it is not `undefined`, both trimmed, and nothing else. */
  function CleanUpdate(input: CategoryInput): (r: map<string, string>)
    ensures r.Keys <= {"name", "description"}
    ensures "name" in r <==> TruthyText(input.name)
    ensures "description" in r <==> input.description.Some?
    ensures "name" in r ==> r["name"] == Trim(input.name.value)
    ensures "description" in r ==> r["description"] == Trim(input.description.value)
  {
    (if TruthyText(input.name) then map["name" := Trim(input.name.value)] else map[])
    + (if input.description.Some? then map["description" := Trim(input.description.value)] else map[])
  }

  /** Every string `save` stores is already trimmed. */
  lemma SavedFieldsTrimmed(input: CategoryInput)
    requires input.name.Some?
    ensures Trim(SaveFields(input).value.name) == SaveFields(input).value.name
    ensures Trim(SaveFields(input).value.description) == SaveFields(input).value.description
  {
    TrimIdempotent(input.name.value);
    TrimIdempotent(input.description.GetOr(""));
  }

  /** A description of white space only is saved as `""`. */
  lemma SpaceDescriptionSavedEmpty(name: string, description: string)
    requires AllSpace(description)
    ensures SaveFields(CategoryInput(Some(name), Some(description))).value.description == ""
  {
    TrimEmptyIff(description);
  }

  /** An empty name leaves the stored name unchanged; a name of white space
      only (truthy, so it is kept) becomes `""`. */
  lemma NameUpdateCases(description: Option<string>, spaces: string)
    requires spaces != "" && AllSpace(spaces)
    ensures "name" !in CleanUpdate(CategoryInput(Some(""), description))
    ensures CleanUpdate(CategoryInput(Some(spaces), description))["name"] == ""
  {
    TrimEmptyIff(spaces);
  }

  /** A supplied description of white space only clears the stored one. */
  lemma SpaceDescriptionClears(name: Option<string>, description: string)
    requires AllSpace(description)
    ensures CleanUpdate(CategoryInput(name, Some(description)))["description"] == ""
  {
    TrimEmptyIff(description);
  }
}
