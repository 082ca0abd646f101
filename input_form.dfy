/** The critique form (components/InputForm.tsx): its brand fields, file
    selection, single-field updates and the ordered checks before submitting. */
module InputForm {
  import opened Wrappers
  import opened Types

  const NoFileMessage := "Please upload an image or video file."
  const MissingFieldsMessage := "Please fill in Brand Name, Platform, and Content Description."

  const DefaultBrandInfo := BrandInfo("", "", "", "TikTok", "")

  /** The form's starting brand record: the scraped one when there is one, else the defaults. */
  function InitialBrandInfo(initial: Option<BrandInfo>): (b: BrandInfo)
    ensures initial.Some? ==> b == initial.value
    ensures initial.None? ==>
      b.name == "" && b.personality == "" && b.colors == "" && b.platform == "TikTok" && b.competitors == ""
  {
    initial.GetOr(DefaultBrandInfo)
  }

  /** The arguments handed to `onSubmit`. */
  datatype Submission = Submission(file: File, brandInfo: BrandInfo, contentDescription: string)

  /** The submit checks in order: a file first, then name, platform and description.
      Personality, colours and competitors are not checked. */
  function Validate(file: Option<File>, brandInfo: BrandInfo, contentDescription: string): (r: Result<Submission, string>)
    ensures file.None? ==> r == Failure(NoFileMessage)
    ensures file.Some? && (brandInfo.name == "" || brandInfo.platform == "" || contentDescription == "") ==>
              r == Failure(MissingFieldsMessage)
    ensures r.Success? <==>
              file.Some? && brandInfo.name != "" && brandInfo.platform != "" && contentDescription != ""
    ensures r.Success? ==> r.value == Submission(file.value, brandInfo, contentDescription)
  {
    if file.None? then Failure(NoFileMessage)
    else if brandInfo.name == "" || brandInfo.platform == "" || contentDescription == "" then Failure(MissingFieldsMessage)
    else Success(Submission(file.value, brandInfo, contentDescription))
  }

  /** The unchecked fields never decide whether the form submits. */
  lemma OptionalFieldsIgnored(file: Option<File>, brandInfo: BrandInfo, contentDescription: string,
                              personality: string, colors: string, competitors: string)
    ensures var other := brandInfo.(personality := personality, colors := colors, competitors := competitors);
      Validate(file, other, contentDescription).Success? == Validate(file, brandInfo, contentDescription).Success?
  {
  }

  /** The input names that map onto brand fields. */
  predicate IsBrandField(field: string) {
    field == "name" || field == "personality" || field == "colors" || field == "platform" || field == "competitors"
  }

  /** Reading a brand field by its input name. */
  function FieldValue(b: BrandInfo, field: string): (v: Option<string>)
    ensures v.Some? <==> IsBrandField(field)
  {
    if field == "name" then Some(b.name)
    else if field == "personality" then Some(b.personality)
    else if field == "colors" then Some(b.colors)
    else if field == "platform" then Some(b.platform)
    else if field == "competitors" then Some(b.competitors)
    else None
  }

  /** `{ ...prev, [field]: value }`: the named field takes the value and every other field keeps its own. */
  function WithField(b: BrandInfo, field: string, value: string): (r: BrandInfo)
    ensures IsBrandField(field) ==> FieldValue(r, field) == Some(value)
    ensures forall f :: f != field ==> FieldValue(r, f) == FieldValue(b, f)
    ensures !IsBrandField(field) ==> r == b
  {
    if field == "name" then b.(name := value)
    else if field == "personality" then b.(personality := value)
    else if field == "colors" then b.(colors := value)
    else if field == "platform" then b.(platform := value)
    else if field == "competitors" then b.(competitors := value)
    else b
  }

  class Form {
    var file: Option<File>
    var preview: Option<string>
    var brandInfo: BrandInfo
    var contentDescription: string
    var error: Option<string>

    constructor(initialBrandInfo: Option<BrandInfo>)
      ensures file == None && preview == None && error == None && contentDescription == ""
      ensures brandInfo == InitialBrandInfo(initialBrandInfo)
    {
      file, preview, error, contentDescription := None, None, None, "";
      brandInfo := InitialBrandInfo(initialBrandInfo);
    }

    /** The effect on `initialBrandInfo`: a non-null value replaces the whole record. */
    method SyncInitialBrandInfo(initialBrandInfo: Option<BrandInfo>)
      modifies this
      ensures brandInfo == if initialBrandInfo.Some? then initialBrandInfo.value else old(brandInfo)
      ensures file == old(file) && preview == old(preview)
      ensures contentDescription == old(contentDescription) && error == old(error)
    {
      if initialBrandInfo.Some? {
        brandInfo := initialBrandInfo.value;
      }
    }

    /** A selected file is stored with its object URL and clears the error; an empty selection changes nothing. */
    method HandleFileChange(selected: Option<File>, objectUrl: string)
      modifies this
      ensures selected.Some? ==> file == selected && preview == Some(objectUrl) && error == None
      ensures selected.None? ==> file == old(file) && preview == old(preview) && error == old(error)
      ensures brandInfo == old(brandInfo) && contentDescription == old(contentDescription)
    {
      if selected.Some? {
        file := selected;
        preview := Some(objectUrl);
        error := None;
      }
    }

    /** The description input updates only the description; any other input only its brand field. */
    method HandleInputChange(name: string, value: string)
      modifies this
      ensures name == "contentDescription" ==>
                contentDescription == value && brandInfo == old(brandInfo)
      ensures name != "contentDescription" ==>
                brandInfo == WithField(old(brandInfo), name, value) && contentDescription == old(contentDescription)
      ensures file == old(file) && preview == old(preview) && error == old(error)
    {
      if name == "contentDescription" {
        contentDescription := value;
      } else {
        brandInfo := WithField(brandInfo, name, value);
      }
    }

    /** The checks in order with an early return; on success the error is
        cleared and the current values are handed over unchanged. */
    method HandleSubmit() returns (submitted: Option<Submission>)
      modifies this
      ensures var v := Validate(old(file), old(brandInfo), old(contentDescription));
        && (v.Success? ==> submitted == Some(v.value) && error == None)
        && (v.Failure? ==> submitted == None && error == Some(v.error))
      ensures file == old(file) && preview == old(preview)
      ensures brandInfo == old(brandInfo) && contentDescription == old(contentDescription)
    {
      if file.None? {
        error := Some(NoFileMessage);
        return None;
      }
      if brandInfo.name == "" || brandInfo.platform == "" || contentDescription == "" {
        error := Some(MissingFieldsMessage);
        return None;
      }
      error := None;
      submitted := Some(Submission(file.value, brandInfo, contentDescription));
    }
  }
}
