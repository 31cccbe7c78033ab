/**
 * The visitor registration form: six text fields and a photo captured from
 * the webcam. Submitting checks that every field and the photo are present,
 * renames the fields to the backend's names and hands them to `onRegister`.
 */
module Register {
  import opened Common
  import opened DataUrl

  /** `formData`: field name to value; `handleChange` may add any name. */
  type Form = map<string, string>

  /** The six fields of the form, in the order they are checked. */
  const Fields: seq<string> := ["nik", "fullName", "birthDate", "address", "companyName", "email"]
  /** The error key used for a missing photo. */
  const ImageKey: string := "image"

  /** The message each error key gets. */
  const Messages: map<string, string> := map[
    "nik" := "NIK is required",
    "fullName" := "Full name is required",
    "birthDate" := "Birth date is required",
    "address" := "Address is required",
    "companyName" := "Company name is required",
    "email" := "Email is required",
    "image" := "Please capture a photo"]

  const FixErrors: string := "Please fix the errors in the form"
  const Registered: string := "Visitor registered successfully!"
  const RegistrationFailed: string := "Registration failed. Please try again."

  /** The form as it starts and as a successful registration leaves it. */
  const EmptyForm: Form := map["nik" := "", "fullName" := "", "birthDate" := "", "address" := "", "companyName" := "", "email" := ""]

  /** `!formData[field]`: the field is absent or empty. */
  predicate Missing(form: Form, field: string)
  {
    field !in form || form[field] == ""
  }

  /** Every field the form is built with is present. */
  predicate Complete(form: Form)
  {
    "nik" in form && "fullName" in form && "birthDate" in form &&
    "address" in form && "companyName" in form && "email" in form
  }

  /** Adds `key` with its message when `missing` holds. */
  function Flag(errors: map<string, string>, missing: bool, key: string): map<string, string>
    requires key in Messages
  {
    if missing then errors[key := Messages[key]] else errors
  }

  /** The errors for the listed fields: each missing one under its own name. */
  function FieldErrors(form: Form, fields: seq<string>): (errors: map<string, string>)
    requires forall i :: 0 <= i < |fields| ==> fields[i] in Messages
    ensures forall k :: k in errors <==> k in fields && Missing(form, k)
    ensures forall k :: k in errors ==> k in Messages && errors[k] == Messages[k]
  {
    if fields == [] then map[]
    else
      var last := fields[|fields| - 1];
      Flag(FieldErrors(form, fields[..|fields| - 1]), Missing(form, last), last)
  }

  /**
   * validate: one entry per missing field, under the field's own name, and one
   * under `image` when no photo has been captured, each with its fixed message.
   */
  function Validate(form: Form, imageSrc: Option<string>): (errors: map<string, string>)
    ensures forall k :: k in errors <==> (k in Fields && Missing(form, k)) || (k == ImageKey && !Truthy(imageSrc))
    ensures forall k :: k in errors ==> k in Messages && errors[k] == Messages[k]
  {
    Flag(FieldErrors(form, Fields), !Truthy(imageSrc), ImageKey)
  }

  /** The form passes exactly when all six fields are filled in and a photo is present. */
  lemma ValidateEmptyIff(form: Form, imageSrc: Option<string>)
    ensures Validate(form, imageSrc) == map[] <==> (forall f :: f in Fields ==> !Missing(form, f)) && Truthy(imageSrc)
  {
    var errors := Validate(form, imageSrc);
    if errors == map[] {
      forall f | f in Fields
        ensures !Missing(form, f)
      {
        assert f !in errors;
      }
      assert ImageKey !in errors;
    } else {
      var k :| k in errors;
    }
  }

  /** The body sent to the backend. */
  datatype Payload = Payload(
    nik: string,
    full_name: string,
    birth_date: string,
    address: string,
    company_name: string,
    email: string,
    photo: string)

  /** `dataToSend`: three fields renamed to the backend's snake-case names, the photo added. */
  function ToPayload(form: Form, photo: string): (p: Payload)
    requires Complete(form)
  {
    Payload(form["nik"], form["fullName"], form["birthDate"], form["address"], form["companyName"], form["email"], photo)
  }

  /** The form a payload was built from, under the form's own field names. */
  function FormOf(p: Payload): (form: Form)
    ensures Complete(form)
  {
    map["nik" := p.nik, "fullName" := p.full_name, "birthDate" := p.birth_date,
        "address" := p.address, "companyName" := p.company_name, "email" := p.email]
  }

  /** The six fields of a form, and nothing else. */
  function Restrict(form: Form): (r: Form)
  {
    map k | k in form && k in Fields :: form[k]
  }

  /** Renaming loses nothing: the payload gives back the six fields, and a payload is rebuilt from its own form. */
  lemma PayloadRoundTrip(form: Form, photo: string, p: Payload)
    requires Complete(form)
    ensures FormOf(ToPayload(form, photo)) == Restrict(form)
    ensures ToPayload(FormOf(p), p.photo) == p
  {
    var back := FormOf(ToPayload(form, photo));
    var expected := Restrict(form);
    assert back.Keys == expected.Keys;
  }

  /** A form that passes validation has a photo. */
  lemma PassingFormHasPhoto(form: Form, imageSrc: Option<string>)
    requires Validate(form, imageSrc) == map[]
    ensures Truthy(imageSrc)
  {
    assert ImageKey !in Validate(form, imageSrc);
  }

  /** A payload that is sent carries no empty field and the captured photo. */
  lemma SentPayloadFilled(form: Form, imageSrc: Option<string>)
    requires Complete(form) && Validate(form, imageSrc) == map[]
    ensures imageSrc.Some?
    ensures var p := ToPayload(form, imageSrc.value);
      p.nik != "" && p.full_name != "" && p.birth_date != "" && p.address != "" &&
      p.company_name != "" && p.email != "" && p.photo != ""
  {
    ValidateEmptyIff(form, imageSrc);
    assert !Missing(form, Fields[0]) && !Missing(form, Fields[1]) && !Missing(form, Fields[2]);
    assert !Missing(form, Fields[3]) && !Missing(form, Fields[4]) && !Missing(form, Fields[5]);
  }

  /** The reset form has all six fields. */
  lemma EmptyFormComplete()
    ensures Complete(EmptyForm)
  {
  }

  /** The registration form's state. */
  class RegisterForm {
    var formData: Form
    var errors: map<string, string>
    var loading: bool
    var alertMessage: Option<string>
    var alertType: AlertType
    var imageSrc: Option<string>
    var isFaceDetected: bool
    var modelsLoaded: bool
    var isCapturing: bool

    ghost predicate Valid()
      reads this
    {
      Complete(formData)
    }

    constructor ()
      ensures Valid()
      ensures formData == EmptyForm && errors == map[] && !loading && alertMessage == None && alertType == Unset
      ensures imageSrc == None && !isFaceDetected && !modelsLoaded && !isCapturing
    {
      formData := EmptyForm;
      errors := map[];
      loading := false;
      alertMessage := None;
      alertType := Unset;
      imageSrc := None;
      isFaceDetected := false;
      modelsLoaded := false;
      isCapturing := false;
    }

    /** handleChange: only the named field takes the new value. */
    method HandleChange(name: string, value: string)
      requires Valid()
      modifies this`formData
      ensures Valid()
      ensures formData == old(formData)[name := value]
      ensures forall k :: k in old(formData) && k != name ==> k in formData && formData[k] == old(formData)[k]
    {
      formData := formData[name := value];
    }

    /** startCapture. */
    method StartCapture()
      modifies this`isCapturing
      ensures isCapturing
    {
      isCapturing := true;
    }

    /**
     * capturePhoto: with a webcam, keep the screenshot without its data-URL
     * header. A missing screenshot makes `replace` throw (`threw`) and leaves
     * the photo as it was.
     */
    method CapturePhoto(webcamPresent: bool, screenshot: Option<string>) returns (threw: bool)
      modifies this`imageSrc
      ensures threw <==> webcamPresent && screenshot.None?
      ensures webcamPresent && screenshot.Some? ==> imageSrc == Some(StripDataUrlHeader(screenshot.value))
      ensures !(webcamPresent && screenshot.Some?) ==> imageSrc == old(imageSrc)
    {
      threw := false;
      if webcamPresent {
        match screenshot {
          case None =>
            threw := true;
          case Some(shot) =>
            var photoBase64 := StripDataUrlHeader(shot);
            imageSrc := Some(photoBase64);
        }
      }
    }

    /** handleFaceDetection: while capturing, a frame with at least one face captures the photo. */
    method HandleFaceDetection(webcamPresent: bool, faceCount: nat, screenshot: Option<string>) returns (threw: bool)
      modifies this`isFaceDetected, this`imageSrc
      ensures !(webcamPresent && modelsLoaded && isCapturing) ==> !threw && isFaceDetected == old(isFaceDetected) && imageSrc == old(imageSrc)
      ensures webcamPresent && modelsLoaded && isCapturing ==>
        && isFaceDetected == (faceCount > 0)
        && (threw <==> faceCount > 0 && screenshot.None?)
        && imageSrc == (if faceCount > 0 && screenshot.Some? then Some(StripDataUrlHeader(screenshot.value)) else old(imageSrc))
    {
      threw := false;
      if webcamPresent && modelsLoaded && isCapturing {
        if faceCount > 0 {
          isFaceDetected := true;
          threw := CapturePhoto(webcamPresent, screenshot);
        } else {
          isFaceDetected := false;
        }
      }
    }

    /**
     * handleSubmit. `registered` tells whether `onRegister` resolved. With
     * validation errors nothing is sent; otherwise the renamed payload is sent,
     * a success resets the form and the photo, and a failure keeps them.
     * Earlier validation errors are not cleared by a successful submit.
     */
    method HandleSubmit(registered: bool) returns (sent: Option<Payload>)
      requires Valid()
      modifies this
      ensures Valid()
      ensures var newErrors := Validate(old(formData), old(imageSrc));
        && (sent.None? <==> newErrors != map[])
        && (newErrors != map[] ==>
          && errors == newErrors && alertType == Error && alertMessage == Some(FixErrors)
          && formData == old(formData) && imageSrc == old(imageSrc) && isCapturing == old(isCapturing)
          && loading == old(loading))
      ensures sent.Some? ==>
        && old(imageSrc).Some?
        && sent == Some(ToPayload(old(formData), old(imageSrc).value))
        && errors == old(errors) && !loading
        && (registered ==>
          && alertType == Success && alertMessage == Some(Registered)
          && formData == EmptyForm && imageSrc == None && !isCapturing)
        && (!registered ==>
          && alertType == Error && alertMessage == Some(RegistrationFailed)
          && formData == old(formData) && imageSrc == old(imageSrc) && isCapturing == old(isCapturing))
      ensures isFaceDetected == old(isFaceDetected) && modelsLoaded == old(modelsLoaded)
    {
      var newErrors := Validate(formData, imageSrc);
      if newErrors != map[] {
        errors := newErrors;
        alertType := Error;
        alertMessage := Some(FixErrors);
        sent := None;
      } else {
        PassingFormHasPhoto(formData, imageSrc);
        var dataToSend := Send(registered);
        sent := Some(dataToSend);
      }
    }

    /**
     * The valid branch of handleSubmit: the renamed payload is handed to
     * `onRegister`; a success resets the fields, the photo and capturing, a
     * failure keeps them, and `loading` is false again either way.
     */
    method Send(registered: bool) returns (dataToSend: Payload)
      requires Valid() && imageSrc.Some?
      modifies this`loading, this`alertMessage, this`alertType, this`formData, this`imageSrc, this`isCapturing
      ensures Valid()
      ensures dataToSend == ToPayload(old(formData), old(imageSrc).value) && !loading
      ensures registered ==>
        && alertType == Success && alertMessage == Some(Registered)
        && formData == EmptyForm && imageSrc == None && !isCapturing
      ensures !registered ==>
        && alertType == Error && alertMessage == Some(RegistrationFailed)
        && formData == old(formData) && imageSrc == old(imageSrc) && isCapturing == old(isCapturing)
    {
      loading := true;
      alertMessage := None;
      dataToSend := ToPayload(formData, imageSrc.value);
      if registered {
        EmptyFormComplete();
        alertType := Success;
        alertMessage := Some(Registered);
        formData := EmptyForm;
        imageSrc := None;
        isCapturing := false;
      } else {
        alertType := Error;
        alertMessage := Some(RegistrationFailed);
      }
      loading := false;
    }
  }
}
