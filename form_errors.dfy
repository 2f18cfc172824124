/**
 * The error object of a react-hook-form form, as the account forms fill it:
 * the schema's errors on a failed submit, the server's per-field errors under
 * lowercased names, and a single root error otherwise.
 */
module FormErrors {
  import opened JsValues
  import opened Domain
  import opened Schema

  datatype FieldError = FromSchema(issue: Issue) | FromServer(message: string) | Manual(message: string)

  const RootKey := "root"

  /** The message a server value becomes: an array joined with ", ", anything else as it is. */
  function MessageOf(v: ErrorValue): string {
    match v
    case Messages(items) => Join(items, ", ")
    case Message(text) => text
  }

  /** The names the server's entries are recorded under. */
  function LoweredKeys(entries: ServerErrors): set<string> {
    set i | 0 <= i < |entries| :: ToLower(entries[i].0)
  }

  /** The forEach over Object.entries: each entry sets the error of its lowercased name, later entries overwriting earlier ones. */
  function WithServerErrors(errors: map<string, FieldError>, entries: ServerErrors): map<string, FieldError>
    decreases |entries|
  {
    if entries == [] then errors
    else WithServerErrors(errors[ToLower(entries[0].0) := FromServer(MessageOf(entries[0].1))], entries[1..])
  }

  /** The recorded names are the old ones plus the lowercased server names, and nothing else. */
  lemma {:induction false} ServerErrorsDomain(errors: map<string, FieldError>, entries: ServerErrors)
    ensures WithServerErrors(errors, entries).Keys == errors.Keys + LoweredKeys(entries)
    decreases |entries|
  {
    if entries != [] {
      var k := ToLower(entries[0].0);
      ServerErrorsDomain(errors[k := FromServer(MessageOf(entries[0].1))], entries[1..]);
      assert LoweredKeys(entries) == {k} + LoweredKeys(entries[1..]) by {
        forall x | x in LoweredKeys(entries) ensures x in {k} + LoweredKeys(entries[1..]) {
          var i :| 0 <= i < |entries| && ToLower(entries[i].0) == x;
          if i > 0 {
            assert entries[1..][i - 1] == entries[i];
          }
        }
        forall x | x in LoweredKeys(entries[1..]) ensures x in LoweredKeys(entries) {
          var i :| 0 <= i < |entries[1..]| && ToLower(entries[1..][i].0) == x;
          assert entries[1..][i] == entries[i + 1];
        }
      }
    }
  }

  /** A name no entry lowercases to keeps its old error, or stays absent. */
  lemma {:induction false} ServerErrorsKeep(errors: map<string, FieldError>, entries: ServerErrors, k: string)
    requires forall j :: 0 <= j < |entries| ==> ToLower(entries[j].0) != k
    ensures k in WithServerErrors(errors, entries) <==> k in errors
    ensures k in errors ==> WithServerErrors(errors, entries)[k] == errors[k]
    decreases |entries|
  {
    if entries != [] {
      assert forall j :: 0 <= j < |entries[1..]| ==> entries[1..][j] == entries[j + 1];
      ServerErrorsKeep(errors[ToLower(entries[0].0) := FromServer(MessageOf(entries[0].1))], entries[1..], k);
    }
  }

  /** The entry that last names a key decides its message. */
  lemma {:induction false} ServerErrorsLastWins(errors: map<string, FieldError>, entries: ServerErrors, i: nat)
    requires i < |entries|
    requires forall j :: i < j < |entries| ==> ToLower(entries[j].0) != ToLower(entries[i].0)
    ensures ToLower(entries[i].0) in WithServerErrors(errors, entries)
    ensures WithServerErrors(errors, entries)[ToLower(entries[i].0)] == FromServer(MessageOf(entries[i].1))
    decreases i
  {
    var next := errors[ToLower(entries[0].0) := FromServer(MessageOf(entries[0].1))];
    assert forall j :: 0 <= j < |entries[1..]| ==> entries[1..][j] == entries[j + 1];
    if i == 0 {
      ServerErrorsKeep(next, entries[1..], ToLower(entries[0].0));
    } else {
      ServerErrorsLastWins(next, entries[1..], i - 1);
    }
  }

  /** Server entries only ever add server errors: applied to an object holding none but server errors, every error is one. */
  lemma {:induction false} ServerErrorsAreServer(errors: map<string, FieldError>, entries: ServerErrors)
    requires forall k :: k in errors ==> errors[k].FromServer?
    ensures forall k :: k in WithServerErrors(errors, entries) ==> WithServerErrors(errors, entries)[k].FromServer?
    decreases |entries|
  {
    if entries != [] {
      ServerErrorsAreServer(errors[ToLower(entries[0].0) := FromServer(MessageOf(entries[0].1))], entries[1..]);
    }
  }

  /** Every name the server adds is in lower case, so a server key differing only in case lands on the form's field. */
  lemma ServerKeysLowercase(errors: map<string, FieldError>, entries: ServerErrors)
    ensures forall k :: k in WithServerErrors(errors, entries) && k !in errors ==> ToLower(k) == k
  {
    ServerErrorsDomain(errors, entries);
    forall k | k in WithServerErrors(errors, entries) && k !in errors ensures ToLower(k) == k {
      var i :| 0 <= i < |entries| && ToLower(entries[i].0) == k;
      ToLowerIdempotent(entries[i].0);
    }
  }

  /** The schema's errors as the resolver records them. */
  function SchemaErrors(issues: map<string, Issue>): map<string, FieldError> {
    map k | k in issues :: FromSchema(issues[k])
  }

  /** What a catch block does with the failure. */
  datatype Handling = SignOut | ServerFields(entries: ServerErrors) | RootError(message: string)

  /** The error object after a catch block: server entries mapped, or the root error set; a sign-out sets nothing. */
  function ErrorsAfter(errors: map<string, FieldError>, h: Handling): map<string, FieldError> {
    match h
    case SignOut => errors
    case ServerFields(entries) => WithServerErrors(errors, entries)
    case RootError(message) => errors[RootKey := Manual(message)]
  }

  /** `err.message || fallback`. */
  function RootMessage(f: Failure, fallback: string): (r: string)
    ensures Truthy(f.message) ==> r == f.message.value
    ensures !Truthy(f.message) ==> r == fallback
  {
    if f.message.Some? && f.message.value != "" then f.message.value else fallback
  }

  /** A form's error object, replaced by the resolver and by setError. */
  class Form {
    var errors: map<string, FieldError>

    constructor ()
      ensures errors == map[]
    {
      errors := map[];
    }

    /** setError(name, error). */
    method SetError(name: string, error: FieldError)
      modifies this
      ensures errors == old(errors)[name := error]
    {
      errors := errors[name := error];
    }

    /** handleSubmit's validation: the error object becomes the schema's errors, so a passing submit starts with none. */
    method Validate(issues: map<string, Issue>)
      modifies this
      ensures errors == SchemaErrors(issues)
      ensures errors.Keys == issues.Keys
      ensures forall k :: k in errors ==> errors[k] == FromSchema(issues[k])
      ensures issues == map[] ==> errors == map[]
    {
      errors := SchemaErrors(issues);
    }

    /** The forEach over the server's entries, one setError per entry. */
    method ApplyServerErrors(entries: ServerErrors)
      modifies this
      ensures errors == WithServerErrors(old(errors), entries)
    {
      var i := 0;
      while i < |entries|
        invariant 0 <= i <= |entries|
        invariant WithServerErrors(errors, entries[i..]) == WithServerErrors(old(errors), entries)
      {
        assert entries[i..][1..] == entries[i + 1..];
        SetError(ToLower(entries[i].0), FromServer(MessageOf(entries[i].1)));
        i := i + 1;
      }
      assert entries[i..] == [];
    }

    /** A catch block's effect on the error object. */
    method Report(h: Handling)
      modifies this
      ensures errors == ErrorsAfter(old(errors), h)
    {
      match h {
        case SignOut =>
        case ServerFields(entries) => ApplyServerErrors(entries);
        case RootError(message) => SetError(RootKey, Manual(message));
      }
    }
  }
}
