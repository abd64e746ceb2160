/**
 * The registration form: each keystroke is cleaned by a per-field character whitelist,
 * clears that field's error, and submission requires the terms box and resets the form
 * after a successful registration.
 */
module SignUp {
  import opened Wrappers
  import opened Seqs
  import opened Text

  /** The inputs of the form. */
  datatype SignUpField =
    | Username | FirstName | LastName | Email | Phone | BirthDate | DocumentType | Document
    | Country | Department | City | CityText | DepartmentText | Password | PasswordConfirm

  /** The request key of each input. */
  function FieldName(k: SignUpField): (name: string)
    ensures |name| > 0
  {
    match k
    case Username => "username"
    case FirstName => "first_name"
    case LastName => "last_name"
    case Email => "email"
    case Phone => "phone"
    case BirthDate => "birth_date"
    case DocumentType => "document_type"
    case Document => "document"
    case Country => "country"
    case Department => "department"
    case City => "city"
    case CityText => "city_text"
    case DepartmentText => "department_text"
    case Password => "password"
    case PasswordConfirm => "password_confirm"
  }

  /** The values of the form, sent as the registration request. */
  datatype SignUpData = SignUpData(
    username: string, firstName: string, lastName: string, email: string, phone: string,
    birthDate: string, documentType: string, document: string, country: string,
    department: string, city: string, cityText: string, departmentText: string,
    password: string, passwordConfirm: string)

  /** Every input empty except the country, which starts as Colombia. */
  const InitialData: SignUpData :=
    SignUpData("", "", "", "", "", "", "", "", "Colombia", "", "", "", "", "", "")

  function Get(d: SignUpData, k: SignUpField): string
  {
    match k
    case Username => d.username
    case FirstName => d.firstName
    case LastName => d.lastName
    case Email => d.email
    case Phone => d.phone
    case BirthDate => d.birthDate
    case DocumentType => d.documentType
    case Document => d.document
    case Country => d.country
    case Department => d.department
    case City => d.city
    case CityText => d.cityText
    case DepartmentText => d.departmentText
    case Password => d.password
    case PasswordConfirm => d.passwordConfirm
  }

  /** `{...prev, [name]: value}`: one input takes a value, the others keep theirs. */
  function Set(d: SignUpData, k: SignUpField, v: string): (r: SignUpData)
    ensures Get(r, k) == v
    ensures forall j :: j != k ==> Get(r, j) == Get(d, j)
  {
    match k
    case Username => d.(username := v)
    case FirstName => d.(firstName := v)
    case LastName => d.(lastName := v)
    case Email => d.(email := v)
    case Phone => d.(phone := v)
    case BirthDate => d.(birthDate := v)
    case DocumentType => d.(documentType := v)
    case Document => d.(document := v)
    case Country => d.(country := v)
    case Department => d.(department := v)
    case City => d.(city := v)
    case CityText => d.(cityText := v)
    case DepartmentText => d.(departmentText := v)
    case Password => d.(password := v)
    case PasswordConfirm => d.(passwordConfirm := v)
  }

  // ---------------------------------------------------------------- sanitisers

  /** `[a-zA-Z0-9_]`. */
  predicate IsUsernameChar(c: char)
  {
    IsAsciiLetter(c) || IsDigit(c) || c == '_'
  }

  /** `[a-zA-ZáéíóúÁÉÍÓÚñÑ\s]`. */
  predicate IsNameChar(c: char)
  {
    IsAsciiLetter(c) || c in "áéíóúÁÉÍÓÚñÑ" || IsJsSpace(c)
  }

  /** The characters an input keeps; inputs without a whitelist keep everything. */
  predicate Allowed(k: SignUpField, c: char)
  {
    match k
    case Username => IsUsernameChar(c)
    case FirstName => IsNameChar(c)
    case LastName => IsNameChar(c)
    case Document => IsDigit(c)
    case Phone => IsDigit(c)
    case _ => true
  }

  function AllowedTest(k: SignUpField): char -> bool
  {
    c => Allowed(k, c)
  }

  /** The cleaning `handleInputChange` applies to a typed value before storing it: the specification of `Clean`. */
  function Sanitize(k: SignUpField, value: string): string
  {
    if k == Username then Filter(value, IsUsernameChar)
    else if k == FirstName || k == LastName then Filter(value, IsNameChar)
    else if k == Document || k == Phone then Filter(value, IsDigit)
    else value
  }

  /** Every input's cleaning is the filter by its whitelist. */
  lemma SanitizeIsFilter(k: SignUpField, value: string)
    ensures Sanitize(k, value) == Filter(value, AllowedTest(k))
  {
    if k == Username {
      FilterCongruent(value, IsUsernameChar, AllowedTest(k));
    } else if k == FirstName || k == LastName {
      FilterCongruent(value, IsNameChar, AllowedTest(k));
    } else if k == Document || k == Phone {
      FilterCongruent(value, IsDigit, AllowedTest(k));
    } else {
      FilterKeepsAll(value, AllowedTest(k));
    }
  }

  /** The cleaned value is the typed value with some characters deleted, the rest in order. */
  lemma SanitizeSubsequence(k: SignUpField, value: string)
    ensures IsSubsequence(Sanitize(k, value), value)
  {
    SanitizeIsFilter(k, value);
    FilterIsSubsequence(value, AllowedTest(k));
  }

  /** The cleaned value holds allowed characters only, and every allowed character typed. */
  lemma SanitizeAllowedOnly(k: SignUpField, value: string)
    ensures forall c :: c in Sanitize(k, value) <==> c in value && Allowed(k, c)
  {
    SanitizeIsFilter(k, value);
    forall c ensures c in Sanitize(k, value) <==> c in value && Allowed(k, c) {
      FilterMember(value, AllowedTest(k), c);
    }
  }

  /** Cleaning twice is cleaning once. */
  lemma SanitizeIdempotent(k: SignUpField, value: string)
    ensures Sanitize(k, Sanitize(k, value)) == Sanitize(k, value)
  {
    SanitizeIsFilter(k, value);
    SanitizeIsFilter(k, Sanitize(k, value));
    FilterIdempotent(value, AllowedTest(k));
  }

  /** A value made of allowed characters is stored as typed. */
  lemma SanitizeKeepsClean(k: SignUpField, value: string)
    requires forall i :: 0 <= i < |value| ==> Allowed(k, value[i])
    ensures Sanitize(k, value) == value
  {
    SanitizeIsFilter(k, value);
    FilterKeepsAll(value, AllowedTest(k));
  }

  /**
   * The `replace` chain of `handleInputChange`, by input name, as the handler runs it;
   * `Sanitize` is the filter it is proved to compute.
   */
  method Clean(k: SignUpField, value: string) returns (v: string)
    ensures v == Sanitize(k, value)
  {
    v := value;
    if k == Username {
      v := Filter(v, IsUsernameChar);
    } else if k == FirstName || k == LastName {
      v := Filter(v, IsNameChar);
    } else if k == Document || k == Phone {
      v := Filter(v, IsDigit);
    }
  }

  // ---------------------------------------------------------------- form

  /** The error entries by request key; `None` is an entry that was cleared (`null`). */
  type Errors = map<string, Option<seq<string>>>

  const TermsError: string := "Debes aceptar los Términos y Condiciones"
  const GenericError: string := "Ocurrió un error. Por favor intenta de nuevo."
  const SuccessText: string := "¡Registro exitoso! Verifica tu correo electrónico para activar tu cuenta."

  /** The registration request's outcome: success, a rejection with a body, or a failure without one. */
  datatype RegisterReply = Registered | Rejected(body: Errors) | NoResponse

  /** The errors after a keystroke: a set entry for the edited input becomes `null`. */
  function ClearedErrors(errors: Errors, k: SignUpField): (r: Errors)
    ensures r.Keys == errors.Keys
    ensures forall key :: key in errors && key != FieldName(k) ==> r[key] == errors[key]
    ensures FieldName(k) in errors ==> r[FieldName(k)] == None
  {
    if FieldName(k) in errors && errors[FieldName(k)].Some? then errors[FieldName(k) := None] else errors
  }

  class SignUpForm {
    var data: SignUpData
    var errors: Errors
    var isChecked: bool
    var isLoading: bool
    var successMessage: string

    constructor ()
      ensures data == InitialData && errors == map[] && !isChecked && !isLoading && successMessage == ""
    {
      data := InitialData;
      errors := map[];
      isChecked := false;
      isLoading := false;
      successMessage := "";
    }

    /** `handleInputChange`: the edited input takes the cleaned value and loses its error. */
    method InputChange(k: SignUpField, value: string)
      modifies this
      ensures data == Set(old(data), k, Sanitize(k, value))
      ensures errors == ClearedErrors(old(errors), k)
      ensures isChecked == old(isChecked) && isLoading == old(isLoading) && successMessage == old(successMessage)
    {
      var v := Clean(k, value);
      data := Set(data, k, v);
      if FieldName(k) in errors && errors[FieldName(k)].Some? {
        errors := errors[FieldName(k) := None];
      }
    }

    /** The terms box. */
    method Check(checked: bool)
      modifies this
      ensures isChecked == checked
      ensures data == old(data) && errors == old(errors) && isLoading == old(isLoading)
      ensures successMessage == old(successMessage)
    {
      isChecked := checked;
    }

    /**
     * `handleSubmit`, with the server's reply as an input: returns the request sent, if
     * any. Without the terms box nothing is sent and one general error is set.
     */
    method Submit(reply: RegisterReply) returns (sent: Option<SignUpData>)
      modifies this
      ensures !old(isChecked) ==> sent.None? && errors == map["general" := Some([TermsError])] &&
                                  data == old(data) && !isChecked && successMessage == "" &&
                                  isLoading == old(isLoading)
      ensures old(isChecked) ==> sent == Some(old(data)) && !isLoading
      ensures old(isChecked) && reply.Registered? ==>
                data == InitialData && !isChecked && errors == map[] && successMessage == SuccessText
      ensures old(isChecked) && reply.Rejected? ==>
                data == old(data) && isChecked && errors == reply.body && successMessage == ""
      ensures old(isChecked) && reply.NoResponse? ==>
                data == old(data) && isChecked && errors == map["general" := Some([GenericError])] &&
                successMessage == ""
    {
      errors := map[];
      successMessage := "";
      if !isChecked {
        errors := map["general" := Some([TermsError])];
        return None;
      }
      isLoading := true;
      sent := Some(data);
      match reply {
        case Registered =>
          successMessage := SuccessText;
          data := InitialData;
          isChecked := false;
        case Rejected(body) =>
          errors := body;
        case NoResponse =>
          errors := map["general" := Some([GenericError])];
      }
      isLoading := false;
    }
  }

  /** After a successful registration every input is back to its initial value. */
  lemma InitialDataValues(k: SignUpField)
    ensures Get(InitialData, k) == if k == Country then "Colombia" else ""
  {
  }
}
