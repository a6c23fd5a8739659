/** `validateOptions` and its two helpers, which push field errors onto a
    shared `errors` list in a fixed order. An option is present in `options`
    when the settings object has it; the value is its `.value`. */
module OptionValidation {
  import opened JsValues

  datatype FieldError = FieldError(key: string, message: string)

  /** What `callback` receives, or `Threw` when a TypeError escapes first. */
  datatype Validation = Threw | Errors(errors: seq<FieldError>)

  const DoubleSlashError := FieldError("url", "Your Url must not end with a //")
  const UrlError := FieldError("url", "You must provide a valid API URL")
  const TokenError := FieldError("securityToken", "You must provide a valid Security Token")

  /** Neither `typeof v !== 'string'` nor an empty string. */
  predicate IsNonEmptyString(v: Value)
  {
    v.Str? && |v.s| > 0
  }

  /** `url && url.endsWith('//')` throws when `url` is truthy but not a
      string: JSON values other than strings have no `endsWith`. */
  predicate UrlCheckThrows(url: Value)
  {
    Truthy(url) && !url.Str?
  }

  /** The reference definition: which errors `validateOptions` reports, in
      which order, and when it throws instead. */
  function ExpectedValidation(options: map<string, Value>): Validation
  {
    if "url" !in options || UrlCheckThrows(options["url"]) || "securityToken" !in options then Threw
    else
      var url := options["url"];
      Errors((if url.Str? && EndsWith(url.s, "//") then [DoubleSlashError] else []) +
             (if IsNonEmptyString(url) then [] else [UrlError]) +
             (if IsNonEmptyString(options["securityToken"]) then [] else [TokenError]))
  }

  /** The shared `errors` array. */
  class ErrorList {
    var items: seq<FieldError>

    constructor ()
      ensures items == []
    {
      items := [];
    }

    method Push(e: FieldError)
      modifies this
      ensures items == old(items) + [e]
    {
      items := items + [e];
    }
  }

  /** `validateUrlOption(options.url, errors)`. */
  method ValidateUrlOption(options: map<string, Value>, errors: ErrorList) returns (threw: bool)
    modifies errors
    ensures threw <==> "url" !in options || UrlCheckThrows(options["url"])
    ensures errors.items == old(errors.items) +
      if !threw && options["url"].Str? && EndsWith(options["url"].s, "//") then [DoubleSlashError] else []
  {
    if "url" !in options {
      return true;
    }
    var url := options["url"];
    threw := false;
    if Truthy(url) {
      if !url.Str? {
        return true;
      }
      if EndsWith(url.s, "//") {
        errors.Push(DoubleSlashError);
      }
    }
  }

  /** `validateStringOption(errors, options, name, message)`. */
  method ValidateStringOption(errors: ErrorList, options: map<string, Value>, name: string, message: string)
    returns (threw: bool)
    modifies errors
    ensures threw <==> name !in options
    ensures errors.items == old(errors.items) +
      if !threw && !IsNonEmptyString(options[name]) then [FieldError(name, message)] else []
  {
    if name !in options {
      return true;
    }
    threw := false;
    var value := options[name];
    if !value.Str? || (value.Str? && |value.s| == 0) {
      errors.Push(FieldError(name, message));
    }
  }

  method ValidateOptions(options: map<string, Value>) returns (r: Validation)
    ensures r == ExpectedValidation(options)
  {
    var errors := new ErrorList();
    var threw := ValidateUrlOption(options, errors);
    if threw {
      return Threw;
    }
    threw := ValidateStringOption(errors, options, "url", UrlError.message);
    assert !threw;
    threw := ValidateStringOption(errors, options, "securityToken", TokenError.message);
    if threw {
      return Threw;
    }
    r := Errors(errors.items);
  }

  /** The position of each error kind in the list. */
  function Rank(e: FieldError): nat
  {
    if e == DoubleSlashError then 0 else if e == UrlError then 1 else 2
  }

  /** Each error is reported exactly when its rule is violated, at most once,
      in the order double slash, URL, token; the list is empty exactly when the
      URL is a non-empty string not ending in `//` and the token a non-empty
      string. */
  lemma ValidationErrors(options: map<string, Value>)
    requires ExpectedValidation(options).Errors?
    ensures var errs := ExpectedValidation(options).errors;
      var url := options["url"];
      var token := options["securityToken"];
      (DoubleSlashError in errs <==> url.Str? && EndsWith(url.s, "//")) &&
      (UrlError in errs <==> !IsNonEmptyString(url)) &&
      (TokenError in errs <==> !IsNonEmptyString(token)) &&
      (forall i, j :: 0 <= i < j < |errs| ==> Rank(errs[i]) < Rank(errs[j])) &&
      (errs == [] <==> IsNonEmptyString(url) && !EndsWith(url.s, "//") && IsNonEmptyString(token))
  {
  }

  /** A string URL yields at most one URL error: one ending in `//` is not
      empty. */
  lemma StringUrlAtMostOneUrlError(options: map<string, Value>)
    requires ExpectedValidation(options).Errors? && options["url"].Str?
    ensures !(DoubleSlashError in ExpectedValidation(options).errors && UrlError in ExpectedValidation(options).errors)
  {
  }

  /** A clean configuration passes; a URL ending in `//` with an empty
      token gets two errors; a URL that is a number throws. */
  lemma ValidationExamples()
    ensures ExpectedValidation(map["url" := Str("https://x.com"), "securityToken" := Str("abc")]) == Errors([])
    ensures ExpectedValidation(map["url" := Str("https://x.com//"), "securityToken" := Str("")]) ==
      Errors([DoubleSlashError, TokenError])
    ensures ExpectedValidation(map["url" := Num(5), "securityToken" := Str("abc")]) == Threw
  {
  }
}
