/** The shared input schemas (`loginSchema`, `addPetSchema`, `linkTagSchema`) as the lists of
    issues their `safeParse` reports: an input is accepted exactly when the list is empty.
    Every key of an object schema is checked, in declaration order, and every check of a
    key that has the right type adds its own issue. */
module Schemas {
  import opened Wrappers
  import opened Numbers

  datatype Field = Email | Password | Name | Species | BirthYear | PhotoUrl | Code

  datatype IssueKind =
    | TooShort(minimum: nat)
    | TooLong(maximum: nat)
    | InvalidEmail
    | InvalidUrl
    | NotANumber
    | NotAnInteger
    | TooSmall(lower: int)
    | TooBig(upper: int)

  datatype Issue = Issue(field: Field, kind: IssueKind)

  /** The position of a field's key in its schema. */
  function KeyOrder(f: Field): nat {
    match f
    case Email => 0
    case Password => 1
    case Name => 0
    case Species => 1
    case BirthYear => 4
    case PhotoUrl => 5
    case Code => 0
  }

  /** The issues are reported key by key. */
  predicate InKeyOrder(issues: seq<Issue>) {
    forall i, j :: 0 <= i < j < |issues| ==> KeyOrder(issues[i].field) <= KeyOrder(issues[j].field)
  }

  /** `z.string().min(n)` */
  function MinLength(f: Field, s: string, n: nat): (issues: seq<Issue>)
    ensures issues == [] <==> n <= |s|
    ensures issues != [] ==> issues == [Issue(f, TooShort(n))]
  {
    if |s| < n then [Issue(f, TooShort(n))] else []
  }

  /** `z.string().max(n)` */
  function MaxLength(f: Field, s: string, n: nat): (issues: seq<Issue>)
    ensures issues == [] <==> |s| <= n
    ensures issues != [] ==> issues == [Issue(f, TooLong(n))]
  {
    if |s| > n then [Issue(f, TooLong(n))] else []
  }

  /** `loginSchema`; `isEmail` stands for zod's e-mail pattern. */
  function LoginIssues(email: string, password: string, isEmail: string -> bool): (issues: seq<Issue>)
    ensures issues == [] <==> isEmail(email) && 6 <= |password|
    ensures (Issue(Password, TooShort(6)) in issues) <==> |password| < 6
    ensures (Issue(Email, InvalidEmail) in issues) <==> !isEmail(email)
    ensures InKeyOrder(issues)
  {
    (if isEmail(email) then [] else [Issue(Email, InvalidEmail)]) + MinLength(Password, password, 6)
  }

  /** The password rule does not look at the e-mail: with a well-formed address the login
      form is accepted exactly when the password has at least six characters. */
  lemma {:induction false} PasswordThreshold(email: string, password: string, isEmail: string -> bool)
    requires isEmail(email)
    ensures LoginIssues(email, password, isEmail) == [] <==> |password| >= 6
    ensures |password| < 6 ==> LoginIssues(email, password, isEmail) == [Issue(Password, TooShort(6))]
  {
  }

  /** `z.coerce.number().int().min(1990).max(currentYear).optional()` on a number or
      `undefined`: a NaN fails the type test alone, any other number runs all three checks. */
  function BirthYearIssues(year: Option<JsNumber>, currentYear: int): (issues: seq<Issue>)
    ensures issues == [] <==> year.None? || (IsInteger(year.value) && 1990.0 <= year.value.value <= currentYear as real)
    ensures year == Some(NaN) ==> issues == [Issue(BirthYear, NotANumber)]
    ensures forall i :: 0 <= i < |issues| ==> issues[i].field == BirthYear
  {
    match year
    case None => []
    case Some(NaN) => [Issue(BirthYear, NotANumber)]
    case Some(y) =>
      (if IsInteger(y) then [] else [Issue(BirthYear, NotAnInteger)])
      + (if Less(y, 1990.0) then [Issue(BirthYear, TooSmall(1990))] else [])
      + (if Greater(y, currentYear as real) then [Issue(BirthYear, TooBig(currentYear))] else [])
  }

  /** An infinite year is reported as not an integer and as outside the range, both. */
  lemma {:induction false} InfiniteYearIssues(currentYear: int)
    ensures BirthYearIssues(Some(PosInfinity), currentYear) == [Issue(BirthYear, NotAnInteger), Issue(BirthYear, TooBig(currentYear))]
    ensures BirthYearIssues(Some(NegInfinity), currentYear) == [Issue(BirthYear, NotAnInteger), Issue(BirthYear, TooSmall(1990))]
  {
  }

  /** The add-pet form sends the year of a picked date, an integer: it is accepted exactly
      inside 1990..currentYear. */
  lemma {:induction false} PickedYearAccepted(year: int, currentYear: int)
    ensures BirthYearIssues(Some(Finite(year as real)), currentYear) == [] <==> 1990 <= year <= currentYear
  {
    assert IsInteger(Finite(year as real));
  }

  /** `z.string().url().optional().or(z.literal(''))`: absent, empty or a URL. A string that
      matches neither branch reports the first branch's URL issue. */
  function PhotoUrlIssues(photoUrl: Option<string>, isUrl: string -> bool): (issues: seq<Issue>)
    ensures issues == [] <==> photoUrl.None? || photoUrl.value == "" || isUrl(photoUrl.value)
    ensures forall i :: 0 <= i < |issues| ==> issues[i] == Issue(PhotoUrl, InvalidUrl)
  {
    match photoUrl
    case None => []
    case Some(s) => if isUrl(s) || s == "" then [] else [Issue(PhotoUrl, InvalidUrl)]
  }

  predicate AllFor(issues: seq<Issue>, f: Field) {
    forall i :: 0 <= i < |issues| ==> issues[i].field == f
  }

  lemma {:induction false} PartsInKeyOrder(n: seq<Issue>, s: seq<Issue>, b: seq<Issue>, p: seq<Issue>)
    requires AllFor(n, Name) && AllFor(s, Species) && AllFor(b, BirthYear) && AllFor(p, PhotoUrl)
    ensures InKeyOrder(n + s + b + p)
  {
    var all := n + s + b + p;
    forall i | 0 <= i < |all|
      ensures KeyOrder(all[i].field) == if i < |n| then 0 else if i < |n| + |s| then 1 else if i < |n| + |s| + |b| then 4 else 5
    {
      if i < |n| { assert all[i] == n[i]; }
      else if i < |n| + |s| { assert all[i] == s[i - |n|]; }
      else if i < |n| + |s| + |b| { assert all[i] == b[i - |n| - |s|]; }
      else { assert all[i] == p[i - |n| - |s| - |b|]; }
    }
  }

  /** `addPetSchema`; `breed` and `color` are optional strings, so any string or none passes. */
  function AddPetIssues(name: string, species: string, breed: Option<string>, color: Option<string>,
                        birthYear: Option<JsNumber>, photoUrl: Option<string>,
                        currentYear: int, isUrl: string -> bool): (issues: seq<Issue>)
    ensures issues == [] <==>
      && 2 <= |name| && 2 <= |species|
      && (birthYear.None? || (IsInteger(birthYear.value) && 1990.0 <= birthYear.value.value <= currentYear as real))
      && (photoUrl.None? || photoUrl.value == "" || isUrl(photoUrl.value))
    ensures (Issue(Name, TooShort(2)) in issues) <==> |name| < 2
    ensures (Issue(Species, TooShort(2)) in issues) <==> |species| < 2
    ensures InKeyOrder(issues)
  {
    var n := MinLength(Name, name, 2);
    var s := MinLength(Species, species, 2);
    var b := BirthYearIssues(birthYear, currentYear);
    var p := PhotoUrlIssues(photoUrl, isUrl);
    PartsInKeyOrder(n, s, b, p);
    n + s + b + p
  }

  /** Breed and colour never make a difference. */
  lemma {:induction false} BreedAndColorIgnored(name: string, species: string, breed: Option<string>, color: Option<string>,
                                                 birthYear: Option<JsNumber>, photoUrl: Option<string>,
                                                 currentYear: int, isUrl: string -> bool)
    ensures AddPetIssues(name, species, breed, color, birthYear, photoUrl, currentYear, isUrl)
         == AddPetIssues(name, species, None, None, birthYear, photoUrl, currentYear, isUrl)
  {
  }

  /** `linkTagSchema`: a code of 3 to 50 characters. */
  function LinkTagIssues(code: string): (issues: seq<Issue>)
    ensures issues == [] <==> 3 <= |code| <= 50
    ensures |issues| <= 1
    ensures |code| < 3 ==> issues == [Issue(Code, TooShort(3))]
    ensures |code| > 50 ==> issues == [Issue(Code, TooLong(50))]
  {
    MinLength(Code, code, 3) + MaxLength(Code, code, 50)
  }

  /** The message an issue carries when the schema sets its own; `None` means zod's default
      text, which is not modelled. */
  function CustomMessage(issue: Issue): (m: Option<string>)
    ensures m.Some? ==> issue.kind.TooShort?
    ensures issue.field == Password && issue.kind == TooShort(6) ==> m.Some?
  {
    match issue
    case Issue(Password, TooShort(6)) => Some("La contraseña debe tener al menos 6 caracteres")
    case Issue(Name, TooShort(2)) => Some("El nombre es obligatorio")
    case Issue(Species, TooShort(2)) => Some("La especie es obligatoria")
    case Issue(Code, TooShort(3)) => Some("El código del tag es obligatorio")
    case _ => None
  }
}
