/** The fourteen text inputs of the onboarding form and their editing. */
module FormData {

  /** The keys of the form object. */
  datatype Field =
    | FirstName | LastName | Email | Phone
    | InvestmentAmount | InvestorType | StreetAddress
    | Unit | City | PostalCode | State | Country
    | DateOfBirth | TaxpayerId

  /** The form object: every input is kept as the string the user typed. */
  datatype Form = Form(
    firstName: string, lastName: string, email: string, phone: string,
    investmentAmount: string, investorType: string, streetAddress: string,
    unit: string, city: string, postalCode: string, state: string, country: string,
    dateOfBirth: string, taxpayerId: string)

  /** The form as the wizard opens: every input empty. */
  function EmptyForm(): (form: Form)
    ensures forall f: Field :: Get(form, f) == ""
  {
    Form("", "", "", "", "", "", "", "", "", "", "", "", "", "")
  }

  /** `formData[field]`. */
  function Get(form: Form, f: Field): string
  {
    match f
    case FirstName => form.firstName
    case LastName => form.lastName
    case Email => form.email
    case Phone => form.phone
    case InvestmentAmount => form.investmentAmount
    case InvestorType => form.investorType
    case StreetAddress => form.streetAddress
    case Unit => form.unit
    case City => form.city
    case PostalCode => form.postalCode
    case State => form.state
    case Country => form.country
    case DateOfBirth => form.dateOfBirth
    case TaxpayerId => form.taxpayerId
  }

  /** `{ ...form, [field]: value }`. */
  function Set(form: Form, f: Field, value: string): (r: Form)
    ensures Get(r, f) == value
    ensures forall g :: g != f ==> Get(r, g) == Get(form, g)
  {
    match f
    case FirstName => form.(firstName := value)
    case LastName => form.(lastName := value)
    case Email => form.(email := value)
    case Phone => form.(phone := value)
    case InvestmentAmount => form.(investmentAmount := value)
    case InvestorType => form.(investorType := value)
    case StreetAddress => form.(streetAddress := value)
    case Unit => form.(unit := value)
    case City => form.(city := value)
    case PostalCode => form.(postalCode := value)
    case State => form.(state := value)
    case Country => form.(country := value)
    case DateOfBirth => form.(dateOfBirth := value)
    case TaxpayerId => form.(taxpayerId := value)
  }

  /** Two forms that agree on every field are the same form. */
  lemma FormExtensionality(a: Form, b: Form)
    requires forall f: Field :: Get(a, f) == Get(b, f)
    ensures a == b
  {
    assert Get(a, FirstName) == Get(b, FirstName) && Get(a, LastName) == Get(b, LastName);
    assert Get(a, Email) == Get(b, Email) && Get(a, Phone) == Get(b, Phone);
    assert Get(a, InvestmentAmount) == Get(b, InvestmentAmount) && Get(a, InvestorType) == Get(b, InvestorType);
    assert Get(a, StreetAddress) == Get(b, StreetAddress) && Get(a, Unit) == Get(b, Unit);
    assert Get(a, City) == Get(b, City) && Get(a, PostalCode) == Get(b, PostalCode);
    assert Get(a, State) == Get(b, State) && Get(a, Country) == Get(b, Country);
    assert Get(a, DateOfBirth) == Get(b, DateOfBirth) && Get(a, TaxpayerId) == Get(b, TaxpayerId);
  }

  /** Writing back the value a field already holds changes nothing. */
  lemma SetSameValue(form: Form, f: Field)
    ensures Set(form, f, Get(form, f)) == form
  {
    FormExtensionality(Set(form, f, Get(form, f)), form);
  }
}
