/**
 * The error taxonomy (src/dashgram/exceptions.py). `DashgramError` carries a
 * message; `InvalidCredentials` and `DashgramApiError` are its two kinds, the
 * latter also keeping the HTTP status code and the server's details text.
 */
module Exceptions {

  import opened Wrappers
  import Decimal

  const InvalidCredentialsMessage: string := "Invalid project_id or access_key"
  const StatusCodeSeparator: string := " - Status Code: "

  /** The three exception classes, for `isinstance`. */
  datatype ErrorClass = DashgramErrorClass | InvalidCredentialsClass | DashgramApiErrorClass

  /** How far below `DashgramError` a class is declared. */
  function Depth(c: ErrorClass): nat {
    if c == DashgramErrorClass then 0 else 1
  }

  /** The class each class is declared to extend; `DashgramError` extends no class of the taxonomy. */
  function Parent(c: ErrorClass): (p: Option<ErrorClass>)
    ensures p.Some? ==> Depth(p.value) < Depth(c)
  {
    match c
    case DashgramErrorClass => None
    case InvalidCredentialsClass => Some(DashgramErrorClass)
    case DashgramApiErrorClass => Some(DashgramErrorClass)
  }

  /** `issubclass(c, ancestor)`: `ancestor` is `c` or reached from it by following parents. */
  predicate IsSubclass(c: ErrorClass, ancestor: ErrorClass)
    decreases Depth(c)
  {
    c == ancestor || (Parent(c).Some? && IsSubclass(Parent(c).value, ancestor))
  }

  datatype DashgramError =
    | BaseError(text: string)
    | InvalidCredentials(text: string)
    | DashgramApiError(statusCode: int, details: Option<string>)
  {
    /**
     * `self.message`, fixed by the constructor: the string given to a plain or
     * credentials error, "<details> - Status Code: <code>" for an API error.
     */
    function Message(): (m: string)
      ensures !DashgramApiError? ==> m == text
      ensures DashgramApiError? ==>
                && |m| > |DetailsText(details)| + |StatusCodeSeparator|
                && m[..|DetailsText(details)|] == DetailsText(details)
                && m[|DetailsText(details)|..|DetailsText(details)| + |StatusCodeSeparator|] == " - Status Code: "
                && m[|DetailsText(details)| + |StatusCodeSeparator|..] == Decimal.IntToString(statusCode)
    {
      match this
      case BaseError(text) => text
      case InvalidCredentials(text) => text
      case DashgramApiError(code, details) => DetailsText(details) + StatusCodeSeparator + Decimal.IntToString(code)
    }

    function Class(): ErrorClass {
      match this
      case BaseError(_) => DashgramErrorClass
      case InvalidCredentials(_) => InvalidCredentialsClass
      case DashgramApiError(_, _) => DashgramApiErrorClass
    }

    /** `isinstance(self, cls)`: the error's class is `cls` or a subclass of it. */
    predicate IsInstance(cls: ErrorClass) {
      IsSubclass(Class(), cls)
    }
  }

  /**
   * How the f-string renders the details: the text itself, or "None" when the
   * server's reply had no details field.
   */
  function DetailsText(details: Option<string>): (t: string)
    ensures details.Some? ==> t == details.value
    ensures details.None? ==> t == "None"
  {
    match details
    case Some(d) => d
    case None => "None"
  }

  /** `InvalidCredentials()`, as `raise InvalidCredentials` constructs it. */
  function DefaultInvalidCredentials(): (e: DashgramError)
    ensures e.InvalidCredentials? && e.Message() == "Invalid project_id or access_key"
    ensures e.IsInstance(DashgramErrorClass) && e.IsInstance(InvalidCredentialsClass)
    ensures !e.IsInstance(DashgramApiErrorClass)
  {
    InvalidCredentials(InvalidCredentialsMessage)
  }

  /** The message of a plain or credentials error is the string it was built with. */
  lemma MessageIsConstructorArgument(text: string)
    ensures BaseError(text).Message() == text
    ensures InvalidCredentials(text).Message() == text
  {
  }

  /** Every error is a `DashgramError`. */
  lemma EveryErrorIsDashgramError(e: DashgramError)
    ensures e.IsInstance(DashgramErrorClass)
  {
  }

  /**
   * The API error's message is "<details> - Status Code: <code>", and the
   * code is the integer the digits after the separator spell.
   */
  lemma ApiErrorMessage(code: int, details: string)
    ensures DashgramApiError(code, Some(details)).Message() == details + StatusCodeSeparator + Decimal.IntToString(code)
    ensures var m := DashgramApiError(code, Some(details)).Message();
            |m| > |details| + |StatusCodeSeparator|
            && Decimal.ParseInt(m[|details| + |StatusCodeSeparator|..]) == Some(code)
  {
    var m := DashgramApiError(code, Some(details)).Message();
    assert m[|details| + |StatusCodeSeparator|..] == Decimal.IntToString(code);
    Decimal.IntToStringRoundTrip(code);
  }

  /** A missing details field is rendered as the text "None". */
  lemma ApiErrorWithoutDetails(code: int)
    ensures DashgramApiError(code, None).Message() == "None - Status Code: " + Decimal.IntToString(code)
  {
    assert DetailsText(None) + StatusCodeSeparator == "None - Status Code: ";
  }
}
