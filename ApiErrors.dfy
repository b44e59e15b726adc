/**
 * The API's exception handlers: every error response carries a `detail`
 * text and a status code.  Validation errors are folded into one readable
 * message, "field: msg" per error, joined with "; ".
 */
module ApiErrors {
  import opened Wrappers
  import opened Text
  import opened Query

  /** Ninja's `HttpError`: a status code and a message. */
  datatype HttpError = HttpError(status: nat, message: string)

  datatype ErrorResponse = ErrorResponse(status: nat, detail: string)

  const RESOURCE_NOT_FOUND: string := "Resource not found"
  const VALIDATION_ERROR: string := "Validation error"

  /** `handle_http_error`: the error's own status, its message as the detail. */
  function HandleHttpError(e: HttpError): (r: ErrorResponse)
    ensures r.status == e.status && r.detail == e.message
  {
    ErrorResponse(e.status, e.message)
  }

  /** `handle_404`: status 404, the exception's text, or a stock text when that is empty. */
  function Handle404(message: string): (r: ErrorResponse)
    ensures r.status == 404 && r.detail != []
    ensures message != [] ==> r.detail == message
    ensures message == [] ==> r.detail == RESOURCE_NOT_FOUND
  {
    ErrorResponse(404, if message != [] then message else RESOURCE_NOT_FOUND)
  }

  /** One element of an error's `loc` path: a field name or a list index. */
  datatype LocPart = Key(name: string) | Index(i: nat)

  /** One entry of `exc.errors`: a dict with `loc` (empty when absent) and `msg`, or anything else, shown by its `str`. */
  datatype ErrorEntry = DictEntry(loc: seq<LocPart>, msg: Option<string>) | OtherEntry(text: string)

  /** `exc.errors`: a list, or some other value. */
  datatype Errors = ErrorList(entries: seq<ErrorEntry>) | NotAList(text: string)

  function LocText(l: LocPart): string {
    match l
    case Key(name) => name
    case Index(i) => NatToString(i)
  }

  function LocTexts(loc: seq<LocPart>): (r: seq<string>)
    ensures |r| == |loc|
  {
    seq(|loc|, k requires 0 <= k < |loc| => LocText(loc[k]))
  }

  /** `".".join(str(l) for l in loc if l != "body")`. */
  function FieldOf(loc: seq<LocPart>): string {
    Join(LocTexts(Filter(loc, (l: LocPart) => l != Key("body"))), ".")
  }

  /** A leading "body" is not part of the field name, and a path of "body" alone names no field. */
  lemma BodyIsDropped(loc: seq<LocPart>)
    ensures FieldOf([Key("body")] + loc) == FieldOf(loc)
    ensures FieldOf([Key("body")]) == []
  {
    var keep := (l: LocPart) => l != Key("body");
    assert ([Key("body")] + loc)[1..] == loc;
    assert Filter([Key("body")] + loc, keep) == Filter(loc, keep);
    assert [Key("body")][1..] == [];
  }

  /** The message of one entry. */
  function FormatEntry(e: ErrorEntry): (r: string)
    ensures e.OtherEntry? ==> r == e.text
    ensures e.DictEntry? && FieldOf(e.loc) != [] ==>
      r == FieldOf(e.loc) + ": " + e.msg.GetOr(VALIDATION_ERROR)
    ensures e.DictEntry? && FieldOf(e.loc) == [] ==> r == e.msg.GetOr(VALIDATION_ERROR)
  {
    match e
    case OtherEntry(text) => text
    case DictEntry(loc, msg) =>
      var field := FieldOf(loc);
      var m := msg.GetOr(VALIDATION_ERROR);
      if field != [] then field + ": " + m else m
  }

  function Messages(entries: seq<ErrorEntry>): (r: seq<string>)
    ensures |r| == |entries|
  {
    seq(|entries|, k requires 0 <= k < |entries| => FormatEntry(entries[k]))
  }

  /** The `detail` of a validation error. */
  function ValidationDetail(errors: Errors): string {
    if errors.ErrorList? && errors.entries != [] then Join(Messages(errors.entries), "; ") else VALIDATION_ERROR
  }

  /**
   * What the validation detail says: the stock text for an empty or
   * non-list value, the one message for a single error, and otherwise a
   * text in which every error's message appears.
   */
  lemma ValidationDetailMeaning(errors: Errors)
    ensures !errors.ErrorList? || errors.entries == [] ==> ValidationDetail(errors) == VALIDATION_ERROR
    ensures errors.ErrorList? && |errors.entries| == 1 ==> ValidationDetail(errors) == FormatEntry(errors.entries[0])
    ensures errors.ErrorList? ==>
      forall k :: 0 <= k < |errors.entries| ==> Contains(ValidationDetail(errors), FormatEntry(errors.entries[k]))
  {
    if errors.ErrorList? {
      forall k | 0 <= k < |errors.entries|
        ensures Contains(ValidationDetail(errors), FormatEntry(errors.entries[k]))
      {
        JoinContainsParts(Messages(errors.entries), "; ", k);
      }
    }
  }

  datatype ValidationResponse = ValidationResponse(status: nat, detail: string, errors: Errors)

  /** `handle_validation_error`: the loop that collects one message per entry, then the join. */
  method HandleValidationError(errors: Errors) returns (r: ValidationResponse)
    ensures r.status == 422 && r.errors == errors
    ensures r.detail == ValidationDetail(errors)
  {
    var detail: string;
    if errors.ErrorList? && |errors.entries| > 0 {
      var messages: seq<string> := [];
      var i := 0;
      while i < |errors.entries|
        invariant 0 <= i <= |errors.entries|
        invariant messages == Messages(errors.entries[..i])
      {
        var e := errors.entries[i];
        if e.DictEntry? {
          var field := FieldOf(e.loc);
          var msg := e.msg.GetOr(VALIDATION_ERROR);
          if field != [] {
            messages := messages + [field + ": " + msg];
          } else {
            messages := messages + [msg];
          }
        } else {
          messages := messages + [e.text];
        }
        assert errors.entries[..i + 1] == errors.entries[..i] + [e];
        i := i + 1;
      }
      assert errors.entries[..i] == errors.entries;
      detail := Join(messages, "; ");
    } else {
      detail := VALIDATION_ERROR;
    }
    r := ValidationResponse(422, detail, errors);
  }
}
