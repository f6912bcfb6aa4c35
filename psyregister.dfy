/** The psychologist registration wizard: a page counter moved by per-step submits
    gated on form validity, file checks on the attachment controls, the password
    cross-check, assembly of the registration record and the outcome flags of the
    final submit. Form validity, the selected files' metadata and the server's
    answer are inputs. */
module PsyRegister {
  import opened Wrappers

  /** 5 MiB: the largest accepted attachment, in bytes. */
  const MaxFileSizeBytes: nat := 5242880
  /** The success page shown after the server accepts the registration. */
  const SuccessPage: int := 5

  /** The errors this component sets on a control by hand. */
  datatype ControlError = TooLarge | IsPDF | DontMatch

  /** A form group reduced to what the component reads and writes: control values
      (a missing key is a null value) and the error set on each control. */
  datatype FormGroup = FormGroup(values: map<string, string>, errors: map<string, ControlError>)
  {
    function Value(control: string): Option<string> {
      if control in values then Some(values[control]) else None
    }

    function ErrorOf(control: string): Option<ControlError> {
      if control in errors then Some(errors[control]) else None
    }

    /** `control.setErrors(e)`: replaces that control's error, leaves everything else. */
    function SetErrors(control: string, e: Option<ControlError>): (g: FormGroup)
      ensures g.values == values && g.ErrorOf(control) == e
      ensures forall c :: c != control ==> g.ErrorOf(c) == ErrorOf(c)
    {
      match e
      case None => FormGroup(values, errors - {control})
      case Some(err) => FormGroup(values, errors[control := err])
    }
  }

  /** `form.reset()`: every control's value becomes null and no hand-set error remains. */
  function ResetForm(): (g: FormGroup)
    ensures forall c :: g.Value(c).None? && g.ErrorOf(c).None?
  {
    FormGroup(map[], map[])
  }

  /** A form whose listed controls all start as the empty string, with no other control and no error. */
  function EmptyForm(controls: seq<string>): (g: FormGroup)
    ensures forall c :: c in controls ==> g.Value(c) == Some("")
    ensures forall c :: c !in controls ==> g.Value(c).None?
    ensures forall c :: g.ErrorOf(c).None?
  {
    FormGroup(map c | c in controls :: "", map[])
  }

  const PersonalControls: seq<string> :=
    ["firstName", "surname", "idNumber", "age", "contactNum", "email", "password", "confirmPassword"]
  const BankingControls: seq<string> := ["bankName", "accountType", "accountNum", "branchCode"]
  const ProfessionalControls: seq<string> := ["qualification", "yearsOfExperience", "licenseNum", "isFullTime"]
  const AttachmentControls: seq<string> := ["photoFile", "idDocFile", "cvFile", "licenseFile"]

  /** A file chosen in one of the file inputs: name, size, MIME type and its
      base64 payload as the file reader delivers it. */
  datatype SelectedFile = SelectedFile(name: string, size: nat, mimeType: string, base64: string)

  /** The first file of each of the four file inputs, when one is chosen. */
  datatype FileInputs = FileInputs(
    photo: Option<SelectedFile>,
    cv: Option<SelectedFile>,
    idDoc: Option<SelectedFile>,
    license: Option<SelectedFile>)

  datatype AttachmentType = Cv | Photo | Certificate | IdDocument

  /** The server's numeric attachment type. */
  function TypeId(t: AttachmentType): (code: nat)
    ensures 1 <= code <= 4
  {
    match t
    case Cv => 1
    case Photo => 2
    case Certificate => 3
    case IdDocument => 4
  }

  /** Distinct types are sent under distinct codes. */
  lemma TypeIdsDistinct(s: AttachmentType, t: AttachmentType)
    ensures TypeId(s) == TypeId(t) <==> s == t
  {
  }

  datatype Attachment = Attachment(kind: AttachmentType, fileName: string, base64File: string)

  /** The order in which the record lists attachments: photo, CV, ID, certificate. */
  function UploadOrder(t: AttachmentType): nat
  {
    match t
    case Photo => 0
    case Cv => 1
    case IdDocument => 2
    case Certificate => 3
  }

  /** The file input that feeds attachments of type `t`. */
  function FileFor(f: FileInputs, t: AttachmentType): Option<SelectedFile>
  {
    match t
    case Photo => f.photo
    case Cv => f.cv
    case IdDocument => f.idDoc
    case Certificate => f.license
  }

  function AttachmentOf(file: Option<SelectedFile>, t: AttachmentType): seq<Attachment>
  {
    if file.Some? then [Attachment(t, file.value.name, file.value.base64)] else []
  }

  /** The attachment list of the record: one entry per chosen file, photo, CV, ID, certificate. */
  function Attachments(f: FileInputs): (a: seq<Attachment>)
    ensures |a| <= 4
    ensures forall i :: 0 <= i < |a| ==> FileFor(f, a[i].kind).Some?
  {
    AttachmentOf(f.photo, Photo) + AttachmentOf(f.cv, Cv)
    + AttachmentOf(f.idDoc, IdDocument) + AttachmentOf(f.license, Certificate)
  }

  /** The list is strictly in upload order, so no type appears twice. */
  lemma AttachmentsInUploadOrder(f: FileInputs)
    ensures var a := Attachments(f);
            forall i, j :: 0 <= i < j < |a| ==> UploadOrder(a[i].kind) < UploadOrder(a[j].kind)
  {
  }

  /** A type is present exactly when its input holds a file, and each entry carries that file's name and payload. */
  lemma AttachmentsMatchInputs(f: FileInputs)
    ensures var a := Attachments(f);
            && (forall t :: (exists i :: 0 <= i < |a| && a[i].kind == t) <==> FileFor(f, t).Some?)
            && (forall i :: 0 <= i < |a| ==>
                  FileFor(f, a[i].kind).Some?
                  && a[i].fileName == FileFor(f, a[i].kind).value.name
                  && a[i].base64File == FileFor(f, a[i].kind).value.base64)
  {
    var a := Attachments(f);
    forall t ensures (exists i :: 0 <= i < |a| && a[i].kind == t) <==> FileFor(f, t).Some? {
      if FileFor(f, t).Some? {
        var i := match t
          case Photo => 0
          case Cv => |AttachmentOf(f.photo, Photo)|
          case IdDocument => |AttachmentOf(f.photo, Photo) + AttachmentOf(f.cv, Cv)|
          case Certificate => |AttachmentOf(f.photo, Photo) + AttachmentOf(f.cv, Cv) + AttachmentOf(f.idDoc, IdDocument)|;
        assert a[i].kind == t;
      }
    }
  }

  /** The registration record sent to the server. */
  datatype Psychologist = Psychologist(
    email: Option<string>,
    password: Option<string>,
    firstName: Option<string>,
    lastName: Option<string>,
    phoneNumber: Option<string>,
    idNumber: Option<string>,
    age: Option<string>,
    experienceYears: Option<string>,
    licenseNumber: Option<string>,
    qualifications: seq<Option<string>>,
    accountNumber: Option<string>,
    bankName: Option<string>,
    branchCode: Option<string>,
    accountType: Option<string>,
    isFullTime: Option<string>,
    attachments: seq<Attachment>)

  /** The record the final submit sends: each field read from its control of the
      personal, professional or banking form, one qualification, and the given
      attachment list. */
  function RegistrationRecord(personal: FormGroup, professional: FormGroup, banking: FormGroup,
                              attachments: seq<Attachment>): (p: Psychologist)
    ensures p.email == personal.Value("email") && p.password == personal.Value("password")
    ensures p.firstName == personal.Value("firstName") && p.lastName == personal.Value("surname")
    ensures p.phoneNumber == personal.Value("contactNum") && p.idNumber == personal.Value("idNumber")
    ensures p.age == personal.Value("age")
    ensures p.experienceYears == professional.Value("yearsOfExperience")
    ensures p.licenseNumber == professional.Value("licenseNum")
    ensures p.qualifications == [professional.Value("qualification")]
    ensures p.isFullTime == professional.Value("isFullTime")
    ensures p.accountNumber == banking.Value("accountNum") && p.bankName == banking.Value("bankName")
    ensures p.branchCode == banking.Value("branchCode") && p.accountType == banking.Value("accountType")
    ensures p.attachments == attachments
  {
    Psychologist(
      personal.Value("email"), personal.Value("password"),
      personal.Value("firstName"), personal.Value("surname"),
      personal.Value("contactNum"), personal.Value("idNumber"), personal.Value("age"),
      professional.Value("yearsOfExperience"), professional.Value("licenseNum"),
      [professional.Value("qualification")],
      banking.Value("accountNum"), banking.Value("bankName"),
      banking.Value("branchCode"), banking.Value("accountType"),
      professional.Value("isFullTime"),
      attachments)
  }

  // ---------------------------------------------------------------------------
  // File checks
  // ---------------------------------------------------------------------------

  /** The size rule of the CV, ID and licence inputs: too large iff over 5 MiB. */
  function SizeError(size: nat): (e: Option<ControlError>)
    ensures e.Some? <==> size > MaxFileSizeBytes
    ensures e.Some? ==> e.value == TooLarge
  {
    if size > MaxFileSizeBytes then Some(TooLarge) else None
  }

  predicate AllowedPhotoType(mimeType: string) {
    mimeType == "image/jpeg" || mimeType == "image/jpg" || mimeType == "image/png"
  }

  /** The photo input's error as the handler leaves it: the MIME check runs last and
      overwrites whatever the size check set. */
  function PhotoError(file: Option<SelectedFile>): (e: Option<ControlError>)
    ensures e.None? <==> file.None? || AllowedPhotoType(file.value.mimeType)
    ensures e.Some? ==> e.value == IsPDF
  {
    if file.None? || AllowedPhotoType(file.value.mimeType) then None else Some(IsPDF)
  }

  /** An oversized photo of an accepted type passes the photo check. */
  lemma OversizedPhotoAccepted()
    ensures var f := SelectedFile("portrait.jpg", 6291456, "image/jpeg", "");
            f.size > MaxFileSizeBytes && PhotoError(Some(f)).None?
  {
  }

  /** The photo check with the size rule kept: oversized or of another type is rejected. */
  function IntendedPhotoError(file: Option<SelectedFile>): (e: Option<ControlError>)
    ensures e.None? <==> file.None? || (file.value.size <= MaxFileSizeBytes && AllowedPhotoType(file.value.mimeType))
    ensures file.Some? && file.value.size > MaxFileSizeBytes ==> e == Some(TooLarge)
  {
    if file.None? then None
    else if file.value.size > MaxFileSizeBytes then Some(TooLarge)
    else if AllowedPhotoType(file.value.mimeType) then None
    else Some(IsPDF)
  }

  /** The two photo checks differ only on oversized files. */
  lemma IntendedPhotoErrorAgreesWithinLimit(file: SelectedFile)
    requires file.size <= MaxFileSizeBytes
    ensures IntendedPhotoError(Some(file)) == PhotoError(Some(file))
  {
  }

  // ---------------------------------------------------------------------------
  // Final-submit error flags
  // ---------------------------------------------------------------------------

  datatype SubmitErrors = SubmitErrors(finalSubmitError: bool, duplicateUsername: bool)

  /** The error callback's effect on the two flags: a duplicate username sets only its own
      flag; any other error sets the generic flag and leaves the duplicate flag as it was. */
  function ErrorFlagsAfter(prev: SubmitErrors, duplicateUserName: bool): (r: SubmitErrors)
    ensures duplicateUserName ==> r == SubmitErrors(false, true)
    ensures !duplicateUserName ==> r.finalSubmitError && r.duplicateUsername == prev.duplicateUsername
  {
    if duplicateUserName then SubmitErrors(false, true) else SubmitErrors(true, prev.duplicateUsername)
  }

  /** From a state with no duplicate flag (the initial state, or after going back) one error
      sets exactly one flag. */
  lemma ErrorFlagsExclusiveAfterClear(prev: SubmitErrors, duplicateUserName: bool)
    requires !prev.duplicateUsername
    ensures var r := ErrorFlagsAfter(prev, duplicateUserName);
            r.finalSubmitError != r.duplicateUsername && r.duplicateUsername == duplicateUserName
  {
  }

  /** A duplicate-username error followed by another error, with no step back between,
      leaves both flags set. */
  lemma StaleDuplicateFlag()
    ensures ErrorFlagsAfter(ErrorFlagsAfter(SubmitErrors(false, false), true), false) == SubmitErrors(true, true)
  {
  }

  /** The error flags with the duplicate flag recomputed on every error. */
  function IntendedErrorFlags(duplicateUserName: bool): (r: SubmitErrors)
    ensures r.duplicateUsername == duplicateUserName
    ensures r.finalSubmitError != r.duplicateUsername
  {
    SubmitErrors(!duplicateUserName, duplicateUserName)
  }

  /** The intended flags agree with the as-written ones whenever the duplicate flag starts clear. */
  lemma IntendedErrorFlagsAgreeAfterClear(prev: SubmitErrors, duplicateUserName: bool)
    requires !prev.duplicateUsername
    ensures IntendedErrorFlags(duplicateUserName) == ErrorFlagsAfter(prev, duplicateUserName)
  {
  }

  // ---------------------------------------------------------------------------
  // The component
  // ---------------------------------------------------------------------------

  class PsyregisterComponent {
    var personalForm: FormGroup
    var bankingForm: FormGroup
    var professionalForm: FormGroup
    var attachmentForm: FormGroup
    var loading: bool
    var submitted: bool
    var page: int
    var finalSubmitError: bool
    var duplicateUsername: bool
    var successEmailAddress: Option<string>
    var isTermsAndConditionsAccepted: bool

    function Errors(): SubmitErrors
      reads this
    {
      SubmitErrors(finalSubmitError, duplicateUsername)
    }

    /** Construction followed by `ngOnInit`: page 1, nothing submitted, empty forms. */
    constructor ()
      ensures page == 1 && !loading && !submitted && !finalSubmitError && !duplicateUsername
      ensures successEmailAddress.None? && !isTermsAndConditionsAccepted
      ensures personalForm == EmptyForm(PersonalControls) && bankingForm == EmptyForm(BankingControls)
      ensures professionalForm == EmptyForm(ProfessionalControls) && attachmentForm == EmptyForm(AttachmentControls)
    {
      loading := false;
      submitted := false;
      page := 1;
      finalSubmitError := false;
      duplicateUsername := false;
      successEmailAddress := None;
      isTermsAndConditionsAccepted := false;
      personalForm := EmptyForm(PersonalControls);
      bankingForm := EmptyForm(BankingControls);
      professionalForm := EmptyForm(ProfessionalControls);
      attachmentForm := EmptyForm(AttachmentControls);
    }

    method OnPersonalSubmit(formValid: bool)
      modifies this`submitted, this`page
      ensures submitted == !formValid
      ensures page == old(page) + (if formValid then 1 else 0)
    {
      submitted := true;
      if formValid {
        submitted := false;
        NextPage();
      }
    }

    method OnProfessionalSubmit(formValid: bool)
      modifies this`submitted, this`page
      ensures submitted == !formValid
      ensures page == old(page) + (if formValid then 1 else 0)
    {
      submitted := true;
      if formValid {
        submitted := false;
        NextPage();
      }
    }

    method OnAttachmentsSubmit(formValid: bool)
      modifies this`submitted, this`page
      ensures submitted == !formValid
      ensures page == old(page) + (if formValid then 1 else 0)
    {
      submitted := true;
      if formValid {
        submitted := false;
        NextPage();
      }
    }

    /** The last step: never moves the page; a valid form starts the final submit. */
    method OnBankingSubmit(formValid: bool, files: FileInputs) returns (request: Option<Psychologist>)
      modifies this`submitted, this`loading
      ensures submitted == !formValid
      ensures formValid ==>
                loading && request == Some(RegistrationRecord(personalForm, professionalForm, bankingForm, Attachments(files)))
      ensures !formValid ==> loading == old(loading) && request.None?
    {
      submitted := true;
      request := None;
      if formValid {
        submitted := false;
        var psych := FinalSubmit(files);
        request := Some(psych);
      }
    }

    /** Assemble the record from the three data forms and the chosen files, then show the spinner. */
    method FinalSubmit(files: FileInputs) returns (psych: Psychologist)
      modifies this`loading
      ensures loading
      ensures psych == RegistrationRecord(personalForm, professionalForm, bankingForm, Attachments(files))
    {
      var attachments := GenerateAttachments(files);
      psych := RegistrationRecord(personalForm, professionalForm, bankingForm, attachments);
      loading := true;
    }

    /** Success callback of the registration: keep the email for the success page, clear the forms, go to page 5. */
    method OnRegisterSuccess()
      modifies this`loading, this`successEmailAddress, this`personalForm, this`professionalForm,
               this`bankingForm, this`attachmentForm, this`page
      ensures !loading && page == SuccessPage
      ensures successEmailAddress == old(personalForm).Value("email")
      ensures personalForm == ResetForm() && professionalForm == ResetForm()
      ensures bankingForm == ResetForm() && attachmentForm == ResetForm()
    {
      loading := false;
      successEmailAddress := personalForm.Value("email");
      personalForm := ResetForm();
      professionalForm := ResetForm();
      bankingForm := ResetForm();
      attachmentForm := ResetForm();
      page := 5;
    }

    /** Error callback of the registration; `duplicateUserName` is whether the error body carries that marker. */
    method OnRegisterError(duplicateUserName: bool)
      modifies this`loading, this`finalSubmitError, this`duplicateUsername
      ensures !loading
      ensures Errors() == ErrorFlagsAfter(old(Errors()), duplicateUserName)
    {
      loading := false;
      finalSubmitError := true;
      if duplicateUserName {
        duplicateUsername := true;
        finalSubmitError := false;
      }
    }

    /** The personal form's cross-field validator. `matched` is true where it returns null;
        otherwise it marks the confirmation control and falls through. */
    method ValidatePassword() returns (matched: bool)
      modifies this`personalForm
      ensures matched <==> old(personalForm).Value("password") == old(personalForm).Value("confirmPassword")
      ensures matched ==> personalForm == old(personalForm)
      ensures !matched ==> personalForm == old(personalForm).SetErrors("confirmPassword", Some(DontMatch))
    {
      var pass := personalForm.Value("password");
      var confirmPass := personalForm.Value("confirmPassword");
      if pass == confirmPass {
        return true;
      } else {
        personalForm := personalForm.SetErrors("confirmPassword", Some(DontMatch));
        return false;
      }
    }

    method OnCVFileChange(file: Option<SelectedFile>)
      modifies this`attachmentForm
      ensures file.Some? ==> attachmentForm == old(attachmentForm).SetErrors("cvFile", SizeError(file.value.size))
      ensures file.None? ==> attachmentForm == old(attachmentForm)
    {
      if file.Some? {
        if file.value.size > MaxFileSizeBytes {
          attachmentForm := attachmentForm.SetErrors("cvFile", Some(TooLarge));
        } else {
          attachmentForm := attachmentForm.SetErrors("cvFile", None);
        }
      }
    }

    method OnIdDocFileChange(file: Option<SelectedFile>)
      modifies this`attachmentForm
      ensures file.Some? ==> attachmentForm == old(attachmentForm).SetErrors("idDocFile", SizeError(file.value.size))
      ensures file.None? ==> attachmentForm == old(attachmentForm)
    {
      if file.Some? {
        if file.value.size > MaxFileSizeBytes {
          attachmentForm := attachmentForm.SetErrors("idDocFile", Some(TooLarge));
        } else {
          attachmentForm := attachmentForm.SetErrors("idDocFile", None);
        }
      }
    }

    /** Clear the photo error, apply the size rule, then the MIME rule (which has the last word). */
    method OnPhotoFileChange(file: Option<SelectedFile>)
      modifies this`attachmentForm
      ensures attachmentForm == old(attachmentForm).SetErrors("photoFile", PhotoError(file))
    {
      attachmentForm := attachmentForm.SetErrors("photoFile", None);
      if file.Some? {
        if file.value.size > MaxFileSizeBytes {
          attachmentForm := attachmentForm.SetErrors("photoFile", Some(TooLarge));
        } else {
          attachmentForm := attachmentForm.SetErrors("photoFile", None);
        }
        if AllowedPhotoType(file.value.mimeType) {
          attachmentForm := attachmentForm.SetErrors("photoFile", None);
        } else {
          attachmentForm := attachmentForm.SetErrors("photoFile", Some(IsPDF));
        }
      }
    }

    method OnLicenseFileChange(file: Option<SelectedFile>)
      modifies this`attachmentForm
      ensures file.Some? ==> attachmentForm == old(attachmentForm).SetErrors("licenseFile", SizeError(file.value.size))
      ensures file.None? ==> attachmentForm == old(attachmentForm)
    {
      if file.Some? {
        if file.value.size > MaxFileSizeBytes {
          attachmentForm := attachmentForm.SetErrors("licenseFile", Some(TooLarge));
        } else {
          attachmentForm := attachmentForm.SetErrors("licenseFile", None);
        }
      }
    }

    /** One page back, clearing the outcome of an earlier final submit. */
    method GoBack()
      modifies this`page, this`finalSubmitError, this`duplicateUsername
      ensures page == old(page) - 1 && !finalSubmitError && !duplicateUsername
    {
      page := page - 1;
      finalSubmitError := false;
      duplicateUsername := false;
    }

    method NextPage()
      modifies this`page
      ensures page == old(page) + 1
    {
      page := page + 1;
    }

    /** The terms checkbox handler: accepted exactly when the reported value is false. */
    method CheckValue(event: bool)
      modifies this`isTermsAndConditionsAccepted
      ensures isTermsAndConditionsAccepted == !event
    {
      if event == false {
        isTermsAndConditionsAccepted := true;
      } else {
        isTermsAndConditionsAccepted := false;
      }
    }
  }

  /** Build the attachment list by pushing, in turn, the photo, CV, ID and certificate that are chosen. */
  method GenerateAttachments(files: FileInputs) returns (attachments: seq<Attachment>)
    ensures attachments == Attachments(files)
  {
    attachments := [];
    if files.photo.Some? {
      attachments := attachments + [Attachment(Photo, files.photo.value.name, files.photo.value.base64)];
    }
    if files.cv.Some? {
      attachments := attachments + [Attachment(Cv, files.cv.value.name, files.cv.value.base64)];
    }
    if files.idDoc.Some? {
      attachments := attachments + [Attachment(IdDocument, files.idDoc.value.name, files.idDoc.value.base64)];
    }
    if files.license.Some? {
      attachments := attachments + [Attachment(Certificate, files.license.value.name, files.license.value.base64)];
    }
  }

  // ---------------------------------------------------------------------------
  // Scenarios
  // ---------------------------------------------------------------------------

  /** Four valid steps and an accepted registration end on the success page with the email kept. */
  method RegisterHappyPath(w: PsyregisterComponent, files: FileInputs) returns (request: Option<Psychologist>)
    requires w.page == 1
    modifies w
    ensures request.Some? && request.value.email == old(w.personalForm).Value("email")
    ensures w.page == SuccessPage && !w.loading && !w.submitted
    ensures w.successEmailAddress == old(w.personalForm).Value("email")
  {
    w.OnPersonalSubmit(true);
    w.OnProfessionalSubmit(true);
    w.OnAttachmentsSubmit(true);
    assert w.page == 4;
    request := w.OnBankingSubmit(true, files);
    w.OnRegisterSuccess();
  }

  /** A duplicate-username error, then a retry from the banking page that fails otherwise:
      both the duplicate and the generic message are on. */
  method DuplicateThenGenericError(w: PsyregisterComponent)
    requires !w.finalSubmitError && !w.duplicateUsername
    modifies w
    ensures w.finalSubmitError && w.duplicateUsername
  {
    w.OnRegisterError(true);
    w.OnRegisterError(false);
  }
}
