/**
 * The patient-data form (src/components/UserDataForm.tsx): its submit guard,
 * its button-enable check, the lesion-area table with its label lookup, and
 * the form-state cell that the input handlers update field by field.
 */
module UserDataForm {
  import opened Wrappers
  import opened Types

  /** The state the form starts in: empty names, age 0, gender male, no image, no area. */
  const InitialFormData: UserData := UserData("", "", 0, Male, None, "", "", "")

  /** The `handleSubmit` guard: both names, a positive age, an area and an image. */
  predicate CanSubmit(f: UserData)
    ensures CanSubmit(f) ==> IsFormValid(f)
  {
    f.firstName != "" && f.lastName != "" && !(f.age <= 0) && f.lesionArea != "" && f.image.Some?
  }

  /** `isFormValid`, which enables the submit button: the same checks without the image. */
  predicate IsFormValid(f: UserData)
  {
    f.firstName != "" && f.lastName != "" && f.age > 0 && f.lesionArea != ""
  }

  /** A submittable form has the button enabled, but not conversely: an image is also needed. */
  lemma SubmitGuardStrongerThanButton(f: UserData)
    ensures CanSubmit(f) <==> IsFormValid(f) && f.image.Some?
    ensures IsFormValid(f) && f.image.None? ==> !CanSubmit(f)
  {
  }

  /** The initial state is neither valid nor submittable. */
  lemma InitialFormIncomplete()
    ensures !IsFormValid(InitialFormData) && !CanSubmit(InitialFormData)
  {
  }

  /** One entry of the `lesionAreas` option list; `caption` is the entry's label (a reserved word here). */
  datatype LesionArea = LesionArea(caption: string, value: string)

  const LesionAreas: seq<LesionArea> := [
    LesionArea("Cara", "face"),
    LesionArea("Cuello", "neck"),
    LesionArea("Pecho", "chest"),
    LesionArea("Espalda", "back"),
    LesionArea("Brazo derecho", "upper extremity"),
    LesionArea("Brazo izquierdo", "upper extremity"),
    LesionArea("Mano derecha", "hand"),
    LesionArea("Mano izquierda", "hand"),
    LesionArea("Abdomen", "abdomen"),
    LesionArea("Pierna derecha", "lower extremity"),
    LesionArea("Pierna izquierda", "lower extremity"),
    LesionArea("Pie derecho", "foot"),
    LesionArea("Pie izquierdo", "foot"),
    LesionArea("Cuero cabelludo", "scalp"),
    LesionArea("Otra área", "unknown")
  ]

  /** The text the select shows for its empty placeholder option. */
  const PlaceholderText: string := "Selecciona el área de la lesión"

  /** The `find` predicate: the entry has the selected value and the shown text as its label. */
  predicate Matches(a: LesionArea, value: string, text: string)
  {
    a.value == value && a.caption == text
  }

  /** Array `find`: the first entry that matches, or undefined when none does. */
  function Find(areas: seq<LesionArea>, value: string, text: string): (r: Option<nat>)
    ensures r.None? <==> forall i :: 0 <= i < |areas| ==> !Matches(areas[i], value, text)
    ensures r.Some? ==> r.value < |areas| && Matches(areas[r.value], value, text)
    ensures r.Some? ==> forall j :: 0 <= j < r.value ==> !Matches(areas[j], value, text)
  {
    if |areas| == 0 then None
    else if Matches(areas[0], value, text) then Some(0)
    else match Find(areas[1..], value, text)
      case None => None
      case Some(k) => Some(k + 1)
  }

  /** The label stored on selection: the matching entry's label, or '' when nothing matches. */
  function SelectedLabel(value: string, text: string): (r: string)
    ensures r == text || r == ""
    ensures r == text <==> text == "" || exists i :: 0 <= i < |LesionAreas| && Matches(LesionAreas[i], value, text)
  {
    match Find(LesionAreas, value, text)
    case Some(i) => LesionAreas[i].caption
    case None => ""
  }

  /** Choosing any listed option stores exactly that option's label. */
  lemma SelectedLabelOfOption(i: nat)
    requires i < |LesionAreas|
    ensures SelectedLabel(LesionAreas[i].value, LesionAreas[i].caption) == LesionAreas[i].caption
  {
  }

  /** Choosing the placeholder stores the empty label. */
  lemma PlaceholderHasNoLabel()
    ensures SelectedLabel("", PlaceholderText) == ""
  {
    assert forall i :: 0 <= i < |LesionAreas| ==> LesionAreas[i].value != "";
  }

  /**
   * Values are shared between left and right limbs, so the value does not
   * determine the label: the label has to be stored on its own.
   */
  lemma ValueDoesNotDetermineLabel()
    ensures exists i, j :: 0 <= i < j < |LesionAreas| &&
              LesionAreas[i].value == LesionAreas[j].value && LesionAreas[i].caption != LesionAreas[j].caption
    ensures SelectedLabel(LesionAreas[4].value, LesionAreas[4].caption) != SelectedLabel(LesionAreas[5].value, LesionAreas[5].caption)
  {
    SelectedLabelOfOption(4);
    SelectedLabelOfOption(5);
    assert LesionAreas[4].value == LesionAreas[5].value && LesionAreas[4].caption != LesionAreas[5].caption;
  }

  /** The `formData` state cell and its change handlers. */
  class Form {
    var formData: UserData

    /** The gender select only offers male and female. */
    ghost predicate Valid()
      reads this
    {
      formData.gender != Other
    }

    constructor ()
      ensures Valid() && formData == InitialFormData
    {
      formData := InitialFormData;
    }

    /** `handleImageUpload`: no chosen file leaves the data alone; otherwise only the image fields change. */
    method HandleImageUpload(file: Option<File>, previewUrl: string)
      requires Valid()
      modifies this
      ensures Valid()
      ensures file.None? ==> formData == old(formData)
      ensures file.Some? ==> formData == old(formData).(image := file, imageUrl := previewUrl)
    {
      if file.Some? {
        formData := formData.(image := file, imageUrl := previewUrl);
      }
    }

    method SetFirstName(v: string)
      requires Valid()
      modifies this
      ensures Valid() && formData == old(formData).(firstName := v)
    {
      formData := formData.(firstName := v);
    }

    method SetLastName(v: string)
      requires Valid()
      modifies this
      ensures Valid() && formData == old(formData).(lastName := v)
    {
      formData := formData.(lastName := v);
    }

    /** The age input's handler; the parsed number is given as an integer. */
    method SetAge(v: int)
      requires Valid()
      modifies this
      ensures Valid() && formData == old(formData).(age := v)
    {
      formData := formData.(age := v);
    }

    method SetGender(g: Gender)
      requires Valid()
      requires g != Other
      modifies this
      ensures Valid() && formData == old(formData).(gender := g)
    {
      formData := formData.(gender := g);
    }

    /** The area select's handler: the chosen value and the label looked up from value and shown text. */
    method SelectLesionArea(value: string, shownText: string)
      requires Valid()
      modifies this
      ensures Valid()
      ensures formData == old(formData).(lesionArea := value, lesionLabel := SelectedLabel(value, shownText))
    {
      formData := formData.(lesionArea := value, lesionLabel := SelectedLabel(value, shownText));
    }

    /** `handleSubmit`: hands the form data on exactly when the guard passes, and changes nothing. */
    method HandleSubmit() returns (submitted: Option<UserData>)
      ensures submitted.Some? <==> CanSubmit(formData)
      ensures submitted.Some? ==> submitted.value == formData
    {
      if formData.firstName == "" || formData.lastName == "" || formData.age <= 0
         || formData.lesionArea == "" || formData.image.None? {
        return None;
      }
      submitted := Some(formData);
    }
  }
}
