/**
 * The request-validation middleware (backend/src/middlewares/validateRequest.ts):
 * with no validation errors the request goes on; otherwise the errors are
 * collected into an object keyed by field and reported as one 400 error.
 */
module ValidateRequest {
  import opened Wrappers
  import Strings
  import Seqs
  import opened ErrorHandler

  /** An express-validator error as the middleware reads it: `err.param` and `err.msg`. */
  datatype FieldError = FieldError(param: Option<string>, msg: Option<string>)

  /** `value || fallback`: a missing value and "" are both falsy. */
  function OrElse(value: Option<string>, fallback: string): string {
    if Strings.Truthy(value) then value.value else fallback
  }

  /** `err.param || 'unknown'` */
  function FieldOf(e: FieldError): string {
    OrElse(e.param, "unknown")
  }

  /** `err.msg || 'Invalid value'` */
  function MessageOf(e: FieldError): string {
    OrElse(e.msg, "Invalid value")
  }

  /** The entries of the `extractedErrors` object, in insertion order. */
  type Entries = seq<(string, string)>

  predicate UniqueKeys(entries: Entries) {
    forall i, j :: 0 <= i < j < |entries| ==> entries[i].0 != entries[j].0
  }

  /** The value stored under `key`, if any. */
  function Lookup(entries: Entries, key: string): Option<string> {
    if entries == [] then None
    else if entries[0].0 == key then Some(entries[0].1)
    else Lookup(entries[1..], key)
  }

  /** The keys present. */
  function Keys(entries: Entries): set<string> {
    set i | 0 <= i < |entries| :: entries[i].0
  }

  /**
   * `obj[key] = value`: an existing key keeps its place and takes the new
   * value; a new key goes last.
   */
  function Put(entries: Entries, key: string, value: string): (r: Entries)
    ensures Lookup(r, key) == Some(value)
    ensures forall k :: k != key ==> Lookup(r, k) == Lookup(entries, k)
    ensures Keys(r) == Keys(entries) + {key}
    ensures |entries| <= |r|
    ensures forall i :: 0 <= i < |entries| ==> r[i].0 == entries[i].0
    ensures forall i :: 0 <= i < |entries| && entries[i].0 != key ==> r[i] == entries[i]
    ensures key !in Keys(entries) ==> r == entries + [(key, value)]
    ensures key in Keys(entries) ==> |r| == |entries|
  {
    if entries == [] then [(key, value)]
    else
      assert entries == [entries[0]] + entries[1..];
      KeysCons(entries[0], entries[1..]);
      if entries[0].0 == key then
        var r := [(key, value)] + entries[1..];
        KeysCons((key, value), entries[1..]);
        r
      else
        var rest := Put(entries[1..], key, value);
        KeysCons(entries[0], rest);
        [entries[0]] + rest
  }

  /** The keys of an entry list with one entry in front. */
  lemma KeysCons(e: (string, string), rest: Entries)
    ensures Keys([e] + rest) == {e.0} + Keys(rest)
  {
    var r := [e] + rest;
    forall x | x in Keys(r) ensures x in {e.0} + Keys(rest) {
      var i :| 0 <= i < |r| && r[i].0 == x;
      if i > 0 { assert rest[i - 1].0 == x; }
    }
    forall x | x in Keys(rest) ensures x in Keys(r) {
      var i :| 0 <= i < |rest| && rest[i].0 == x;
      assert r[i + 1].0 == x;
    }
    assert r[0].0 == e.0;
  }

  /** Assigning into an object never creates a duplicate key. */
  lemma {:induction false} PutKeepsUniqueKeys(entries: Entries, key: string, value: string)
    requires UniqueKeys(entries)
    ensures UniqueKeys(Put(entries, key, value))
  {
    var r := Put(entries, key, value);
    if entries == [] {
    } else if entries[0].0 == key {
      assert forall i :: 0 <= i < |r| ==> r[i].0 == entries[i].0;
    } else {
      var tail := entries[1..];
      PutKeepsUniqueKeys(tail, key, value);
      var rest := Put(tail, key, value);
      assert r == [entries[0]] + rest;
      assert forall i :: 0 <= i < |tail| ==> tail[i].0 != entries[0].0;
      assert entries[0].0 !in Keys(tail);
      forall i, j | 0 <= i < j < |r| ensures r[i].0 != r[j].0 {
        if i == 0 {
          assert r[j].0 == rest[j - 1].0 && rest[j - 1].0 in Keys(rest);
        } else {
          assert r[i] == rest[i - 1] && r[j] == rest[j - 1];
        }
      }
    }
  }

  /** The object the `forEach` loop builds, one assignment per error in order. */
  function Extracted(errors: seq<FieldError>): Entries
  {
    if errors == [] then []
    else
      var last := errors[|errors| - 1];
      Put(Extracted(errors[..|errors| - 1]), FieldOf(last), MessageOf(last))
  }

  /** The message of the last error reported for `field`, if any. */
  function LastMessageFor(errors: seq<FieldError>, field: string): Option<string> {
    if errors == [] then None
    else if FieldOf(errors[|errors| - 1]) == field then Some(MessageOf(errors[|errors| - 1]))
    else LastMessageFor(errors[..|errors| - 1], field)
  }

  /**
   * The object has one entry per field: a field is present exactly when some
   * error names it, and its message is that of the LAST error for it.
   */
  lemma {:induction false} ExtractedLastWins(errors: seq<FieldError>, field: string)
    ensures Lookup(Extracted(errors), field) == LastMessageFor(errors, field)
  {
    if errors != [] {
      ExtractedLastWins(errors[..|errors| - 1], field);
    }
  }

  /** No field appears twice in the object. */
  lemma {:induction false} ExtractedUniqueKeys(errors: seq<FieldError>)
    ensures UniqueKeys(Extracted(errors))
  {
    if errors != [] {
      var last := errors[|errors| - 1];
      ExtractedUniqueKeys(errors[..|errors| - 1]);
      PutKeepsUniqueKeys(Extracted(errors[..|errors| - 1]), FieldOf(last), MessageOf(last));
    }
  }

  /** `errors.array().forEach(err => extractedErrors[...] = ...)` */
  method ExtractErrors(errors: seq<FieldError>) returns (extractedErrors: Entries)
    ensures extractedErrors == Extracted(errors)
  {
    extractedErrors := [];
    var i := 0;
    while i < |errors|
      invariant 0 <= i <= |errors|
      invariant extractedErrors == Extracted(errors[..i])
    {
      var err := errors[i];
      assert errors[..i + 1][..i] == errors[..i];
      extractedErrors := Put(extractedErrors, FieldOf(err), MessageOf(err));
      i := i + 1;
    }
    assert errors[..|errors|] == errors;
  }

  /** `${field}: ${message}` */
  function EntryText(entry: (string, string)): string {
    entry.0 + ": " + entry.1
  }

  const MessagePrefix := "Validation failed: "

  /** `Validation failed: ` followed by the entries joined with `, `. */
  function FailureMessage(entries: Entries): string {
    MessagePrefix + Strings.Join(Seqs.Map(entries, EntryText), ", ")
  }

  /** What the middleware passes to `next`: nothing, or one 400 `HttpError`. */
  function Rejection(errors: seq<FieldError>): (r: Option<HttpError>)
    ensures r.None? <==> errors == []
    ensures r.Some? ==> r.value.statusCode == 400 && Strings.StartsWith(r.value.message, MessagePrefix)
  {
    if errors == [] then None
    else
      var m := FailureMessage(Extracted(errors));
      assert m[..|MessagePrefix|] == MessagePrefix;
      Some(HttpError(m, 400))
  }

  /** `validateRequest(req, res, next)` for the validation errors collected on the request. */
  method Validate(errors: seq<FieldError>) returns (failure: Option<HttpError>)
    ensures failure == Rejection(errors)
  {
    if |errors| == 0 {
      return None;
    }
    var extractedErrors := ExtractErrors(errors);
    var errorMessage := Strings.Join(Seqs.Map(extractedErrors, EntryText), ", ");
    failure := Some(HttpError(MessagePrefix + errorMessage, 400));
  }

  /** A single error produces the message `Validation failed: <field>: <message>`. */
  lemma SingleErrorMessage(e: FieldError)
    ensures Rejection([e]) == Some(HttpError(MessagePrefix + FieldOf(e) + ": " + MessageOf(e), 400))
  {
    assert [e][..0] == [];
    assert Extracted([e]) == [(FieldOf(e), MessageOf(e))];
    var text := EntryText((FieldOf(e), MessageOf(e)));
    assert Seqs.Map(Extracted([e]), EntryText) == [text];
    assert Strings.Join([text], ", ") == text;
    assert MessagePrefix + text == MessagePrefix + FieldOf(e) + ": " + MessageOf(e);
  }

  /** A missing or empty param is reported under `unknown`, a missing or empty msg as `Invalid value`. */
  lemma Fallbacks(msg: Option<string>, param: Option<string>)
    ensures FieldOf(FieldError(None, msg)) == "unknown" && FieldOf(FieldError(Some(""), msg)) == "unknown"
    ensures MessageOf(FieldError(param, None)) == "Invalid value" && MessageOf(FieldError(param, Some(""))) == "Invalid value"
  {
  }

  /** A rejected request reaches the client, through the error handler, as a 400 with that message. */
  lemma RejectionResponds(errors: seq<FieldError>, currentStatus: int, production: bool)
    requires errors != []
    ensures var r := HandleError(Thrown(Rejection(errors).value), currentStatus, production);
      r.status == 400 && r.message == FailureMessage(Extracted(errors)) && !r.success
  {
  }
}
