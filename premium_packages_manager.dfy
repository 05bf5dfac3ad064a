/**
 * The admin screen for premium packages: the form schema, the coercion of the two
 * number inputs, the create-or-update choice on submit and the copy of a package
 * into the form for editing.
 */
module PremiumPackagesManager {
  import opened Wrappers
  import opened Text

  /** A `premium_packages` row. */
  datatype Package = Package(
    id: string,
    name: string,
    durationMonths: int,
    price: int,
    description: Option<string>,
    isPopular: bool,
    isActive: bool)

  /** The form's fields; the two flags are switches and always hold a boolean. */
  datatype PackageForm = PackageForm(
    name: string,
    durationMonths: int,
    price: int,
    description: string,
    isPopular: bool,
    isActive: bool)

  /** The form's default values. */
  const DefaultForm := PackageForm("", 1, 0, "", false, true)

  /** The schema's messages, one per rule. */
  datatype FieldError = NameRequired | DurationTooShort | PriceTooLow

  /**
   * `packageSchema`: the issues of a form in field order. A name needs at least one
   * character, the duration at least 1 month, the price at least 1000 rupiah; the
   * description may be anything.
   */
  function Validate(f: PackageForm): (errors: seq<FieldError>)
    ensures NameRequired in errors <==> f.name == ""
    ensures DurationTooShort in errors <==> f.durationMonths < 1
    ensures PriceTooLow in errors <==> f.price < 1000
    ensures |errors| <= 3
    ensures forall i, j :: 0 <= i < j < |errors| ==> errors[i] != errors[j]
  {
    (if f.name == "" then [NameRequired] else [])
    + (if f.durationMonths < 1 then [DurationTooShort] else [])
    + (if f.price < 1000 then [PriceTooLow] else [])
  }

  predicate IsValid(f: PackageForm) {
    Validate(f) == []
  }

  /** A form passes exactly when all three rules hold. */
  lemma ValidIff(f: PackageForm)
    ensures IsValid(f) <==> f.name != "" && f.durationMonths >= 1 && f.price >= 1000
  {
    if !IsValid(f) {
      assert Validate(f)[0] in Validate(f);
    }
  }

  /** The default form is refused for its empty name and its zero price. */
  lemma DefaultFormRefused()
    ensures Validate(DefaultForm) == [NameRequired, PriceTooLow]
  {
  }

  /** Once a name is typed into the default form, it passes exactly when the price reaches 1000. */
  lemma DefaultFormNeedsPrice(name: string, price: int)
    requires name != ""
    ensures IsValid(DefaultForm.(name := name, price := price)) <==> price >= 1000
  {
    ValidIff(DefaultForm.(name := name, price := price));
  }

  // ---------------------------------------------------------------- number inputs

  /** `parseInt(value) || 1`: a text without leading digits, or reading as 0, becomes 1. */
  function CoerceDuration(text: string): (months: int)
    ensures months != 0
    ensures ParseInt(text).Some? && ParseInt(text).value != 0 ==> months == ParseInt(text).value
  {
    var n := ParseInt(text);
    if n.None? || n.value == 0 then 1 else n.value
  }

  /** `parseInt(value) || 0`: a text without leading digits becomes 0. */
  function CoercePrice(text: string): (price: int)
    ensures ParseInt(text).None? ==> price == 0
    ensures ParseInt(text).Some? ==> price == ParseInt(text).value
  {
    var n := ParseInt(text);
    if n.None? || n.value == 0 then 0 else n.value
  }

  /** Typing a positive number of months gives that number; typing 0 gives 1. */
  lemma DurationOfNumber(n: nat)
    ensures CoerceDuration(NatToString(n)) == if n == 0 then 1 else n
  {
    ParseIntOfNatToString(n);
  }

  /** A negative duration passes through the coercion and is refused by the schema. */
  lemma NegativeDurationRefused(n: nat, f: PackageForm)
    requires n > 0
    ensures CoerceDuration(['-'] + NatToString(n)) == -(n as int)
    ensures DurationTooShort in Validate(f.(durationMonths := CoerceDuration(['-'] + NatToString(n))))
  {
    ParseIntOfNegative(n);
  }

  /** Typing a number as the price gives that number back. */
  lemma PriceOfNumber(n: nat)
    ensures CoercePrice(NatToString(n)) == n
  {
    ParseIntOfNatToString(n);
  }

  /** A price field left without digits coerces to 0, which the price rule refuses. */
  lemma NonNumericPriceRefused(text: string, f: PackageForm)
    requires ParseInt(text).None?
    ensures PriceTooLow in Validate(f.(price := CoercePrice(text)))
  {
  }

  /** Whatever is typed, the schema refuses the coerced duration only when it is negative. */
  lemma CoercedDurationRefusedOnlyWhenNegative(text: string, f: PackageForm)
    ensures DurationTooShort in Validate(f.(durationMonths := CoerceDuration(text))) <==> CoerceDuration(text) < 0
  {
  }

  // ---------------------------------------------------------------- submit and edit

  /** The row the form describes, under `id`. */
  function RowOf(id: string, f: PackageForm): (p: Package)
    ensures p.id == id && p.description == Some(f.description)
    ensures p.name == f.name && p.durationMonths == f.durationMonths && p.price == f.price
    ensures p.isPopular == f.isPopular && p.isActive == f.isActive
  {
    Package(id, f.name, f.durationMonths, f.price, Some(f.description), f.isPopular, f.isActive)
  }

  datatype SaveResult = SaveResult(packages: map<string, Package>, saved: bool)

  /**
   * `onSubmit`, reached only by a form that passes the schema: with a package being
   * edited, that row (if it still exists) takes the form's values; without one, a new
   * row is inserted under the id the database assigns. A failing call changes nothing.
   */
  function SavePackage(packages: map<string, Package>, editingId: Option<string>, f: PackageForm,
                       newId: string, dbFails: bool): (r: SaveResult)
    ensures !IsValid(f) || dbFails ==> r == SaveResult(packages, false)
    ensures editingId.Some? ==> r.packages.Keys == packages.Keys
    ensures editingId.None? && r.saved ==> newId !in packages && r.packages.Keys == packages.Keys + {newId}
    ensures forall id :: id in packages && Some(id) != editingId ==> id in r.packages && r.packages[id] == packages[id]
    ensures forall id :: id in r.packages ==> IsValid(f) || r.packages[id] == packages[id]
    ensures IsValid(f) && !dbFails && editingId.Some? ==> r.saved
    ensures IsValid(f) && !dbFails && editingId.Some? && editingId.value in packages ==>
              r.packages[editingId.value] == RowOf(editingId.value, f)
    ensures IsValid(f) && !dbFails && editingId.None? ==> (r.saved <==> newId !in packages)
    ensures editingId.None? && r.saved ==> r.packages[newId] == RowOf(newId, f)
  {
    if !IsValid(f) || dbFails then SaveResult(packages, false)
    else if editingId.Some? then
      var id := editingId.value;
      if id in packages then SaveResult(packages[id := RowOf(id, f)], true)
      else SaveResult(packages, true)
    else if newId in packages then SaveResult(packages, false)
    else SaveResult(packages[newId := RowOf(newId, f)], true)
  }

  /** Every row a save writes satisfies the schema. */
  lemma SavedRowsValid(packages: map<string, Package>, editingId: Option<string>, f: PackageForm, newId: string, dbFails: bool)
    ensures var r := SavePackage(packages, editingId, f, newId, dbFails);
            forall id :: id in r.packages && (id !in packages || r.packages[id] != packages[id]) ==>
              && r.packages[id].name != "" && r.packages[id].durationMonths >= 1 && r.packages[id].price >= 1000
  {
    ValidIff(f);
  }

  /** `handleEdit`: all six editable fields are copied, a missing description as "". */
  function EditForm(p: Package): (f: PackageForm)
    ensures f.name == p.name && f.durationMonths == p.durationMonths && f.price == p.price
    ensures f.isPopular == p.isPopular && f.isActive == p.isActive
    ensures f.description == p.description.GetOr("")
  {
    PackageForm(p.name, p.durationMonths, p.price, p.description.GetOr(""), p.isPopular, p.isActive)
  }

  /**
   * Opening a stored package and saving it unchanged rewrites the same row, except
   * that a missing description is stored as "".
   */
  lemma EditThenSaveUnchanged(packages: map<string, Package>, id: string, newId: string)
    requires id in packages && packages[id].id == id
    requires IsValid(EditForm(packages[id]))
    ensures var p := packages[id];
            var r := SavePackage(packages, Some(id), EditForm(p), newId, false);
            && r.saved
            && r.packages == packages[id := p.(description := Some(p.description.GetOr("")))]
  {
  }

  /** The edit form of a stored package passes the schema exactly when the stored values satisfy it. */
  lemma EditFormValidIff(p: Package)
    ensures IsValid(EditForm(p)) <==> p.name != "" && p.durationMonths >= 1 && p.price >= 1000
  {
    ValidIff(EditForm(p));
  }
}
