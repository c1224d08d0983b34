/**
 * The profile dialog of src/components/ProfileModal.jsx: a form copy of the
 * saved profile (`formData`) that is read-only until the user turns on
 * editing (`isEditing`). The parent's props (`userDetails`, `isOpen`) are
 * fields too; the parent changes them through `ReceiveProps`.
 */
module ProfileModal {
  import opened Wrappers
  import opened Types

  /** The `name` attribute of the four inputs. */
  datatype FieldName = Name | Age | Gender | MedicalHistory

  function Get(p: Profile, f: FieldName): string
  {
    match f
    case Name => p.name
    case Age => p.age
    case Gender => p.gender
    case MedicalHistory => p.medicalHistory
  }

  /** `{ ...prev, [name]: value }`: the named field takes the value, every other field is kept. */
  function With(p: Profile, f: FieldName, value: string): (r: Profile)
    ensures Get(r, f) == value
    ensures forall g :: g != f ==> Get(r, g) == Get(p, g)
  {
    match f
    case Name => p.(name := value)
    case Age => p.(age := value)
    case Gender => p.(gender := value)
    case MedicalHistory => p.(medicalHistory := value)
  }

  /** Two profiles that agree on every field are the same profile. */
  lemma SameFields(p: Profile, q: Profile)
    requires forall f :: Get(p, f) == Get(q, f)
    ensures p == q
  {
    assert Get(p, Name) == Get(q, Name) && Get(p, Age) == Get(q, Age);
    assert Get(p, Gender) == Get(q, Gender) && Get(p, MedicalHistory) == Get(q, MedicalHistory);
  }

  /** Typing back a field's own value changes nothing; a second edit of the same field overrides the first. */
  lemma WithLaws(p: Profile, f: FieldName, a: string, b: string)
    ensures With(p, f, Get(p, f)) == p
    ensures With(With(p, f, a), f, b) == With(p, f, b)
  {
    SameFields(With(p, f, Get(p, f)), p);
    SameFields(With(With(p, f, a), f, b), With(p, f, b));
  }

  /** Edits of two different fields can be made in either order. */
  lemma WithCommutes(p: Profile, f: FieldName, g: FieldName, a: string, b: string)
    requires f != g
    ensures With(With(p, f, a), g, b) == With(With(p, g, b), f, a)
  {
    SameFields(With(With(p, f, a), g, b), With(With(p, g, b), f, a));
  }

  class ProfileForm {
    var userDetails: Profile
    var isOpen: bool
    var formData: Profile
    var isEditing: bool

    /** Read-only means showing the saved profile. */
    predicate Consistent()
      reads this
    {
      !isEditing ==> formData == userDetails
    }

    /** `useState(userDetails)`, `useState(false)`. */
    constructor (userDetails: Profile, isOpen: bool)
      ensures this.userDetails == userDetails && this.isOpen == isOpen
      ensures formData == userDetails && !isEditing
      ensures Consistent()
    {
      this.userDetails := userDetails;
      this.isOpen := isOpen;
      formData := userDetails;
      isEditing := false;
    }

    /**
     * New props from the parent. The reset effect runs when `userDetails`
     * or `isOpen` changed: the form shows the saved profile again, read-only.
     */
    method ReceiveProps(details: Profile, open: bool)
      modifies this
      ensures userDetails == details && isOpen == open
      ensures (details != old(userDetails) || open != old(isOpen)) ==> formData == details && !isEditing
      ensures (details == old(userDetails) && open == old(isOpen)) ==>
        formData == old(formData) && isEditing == old(isEditing)
      ensures old(Consistent()) ==> Consistent()
    {
      var changed := details != userDetails || open != isOpen;
      userDetails, isOpen := details, open;
      if changed {
        formData := details;
        isEditing := false;
      }
    }

    /** `handleChange`: exactly the named field of the form takes the value. */
    method HandleChange(f: FieldName, value: string)
      modifies this
      ensures formData == With(old(formData), f, value)
      ensures Get(formData, f) == value && forall g :: g != f ==> Get(formData, g) == Get(old(formData), g)
      ensures isEditing == old(isEditing) && userDetails == old(userDetails) && isOpen == old(isOpen)
    {
      formData := With(formData, f, value);
    }

    /** A change event from an input, which is disabled (and fires nothing) while read-only. */
    method Input(f: FieldName, value: string)
      modifies this
      ensures old(isEditing) ==> formData == With(old(formData), f, value)
      ensures !old(isEditing) ==> formData == old(formData)
      ensures isEditing == old(isEditing) && userDetails == old(userDetails) && isOpen == old(isOpen)
      ensures old(Consistent()) ==> Consistent()
    {
      if isEditing {
        HandleChange(f, value);
      }
    }

    /** `toggleEdit`: leaving edit mode reverts the form to the saved profile; entering it keeps the form. */
    method ToggleEdit()
      modifies this
      ensures isEditing == !old(isEditing)
      ensures old(isEditing) ==> formData == userDetails
      ensures !old(isEditing) ==> formData == old(formData)
      ensures userDetails == old(userDetails) && isOpen == old(isOpen)
      ensures old(Consistent()) ==> Consistent()
    {
      if isEditing {
        formData := userDetails;
      }
      isEditing := !isEditing;
    }

    /**
     * `handleSubmit`: hands the form to `onSave` (the result) and leaves edit
     * mode; `onClose` is the parent's, which closes the dialog.
     */
    method HandleSubmit() returns (saved: Profile)
      modifies this
      ensures saved == old(formData) && formData == old(formData)
      ensures !isEditing
      ensures userDetails == old(userDetails) && isOpen == old(isOpen)
    {
      saved := formData;
      isEditing := false;
    }

    /** The form's submit event: it saves only in edit mode; a read-only submit does nothing. */
    method Submit() returns (saved: Option<Profile>)
      modifies this
      ensures saved.Some? <==> old(isEditing)
      ensures saved.Some? ==> saved.value == old(formData) && !isEditing
      ensures saved.None? ==> formData == old(formData) && isEditing == old(isEditing)
      ensures formData == old(formData) && userDetails == old(userDetails) && isOpen == old(isOpen)
    {
      if isEditing {
        var p := HandleSubmit();
        saved := Some(p);
      } else {
        saved := None;
      }
    }

    /**
     * A submit as the application wires it (the form is shown only while the
     * dialog is open): in edit mode `onSave` stores the form as the new
     * profile and `onClose` closes the dialog, and the new props bring the
     * form back to a read-only copy of what was saved; a read-only submit
     * changes nothing.
     */
    method SubmitAndClose() returns (saved: Option<Profile>)
      modifies this
      requires isOpen
      ensures saved.Some? <==> old(isEditing)
      ensures saved.Some? ==> saved.value == old(formData) && userDetails == saved.value &&
                              formData == saved.value && !isEditing && !isOpen
      ensures saved.None? ==> userDetails == old(userDetails) && formData == old(formData) &&
                              isEditing == old(isEditing) && isOpen
      ensures old(Consistent()) ==> Consistent()
    {
      saved := Submit();
      if saved.Some? {
        ReceiveProps(saved.value, false);
      }
    }
  }
}
