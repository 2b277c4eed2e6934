/**
 * `handleValidationError`: folds the errors express-validator collected for a
 * request into a `field -> message` dictionary and throws a 400
 * `ValidationException` when there is at least one.
 */
module ValidationErrors {
  import opened Wrappers
  import opened Exceptions

  const ValidationMessage: string := "validation errors"

  /** One entry of `validationResult(req).array()`: the field's path and the message. */
  datatype FieldError = FieldError(path: string, msg: string)

  /** The dictionary the loop builds: each error in turn overwrites its path's entry. */
  function Collect(errors: seq<FieldError>): map<string, string>
    decreases |errors|
  {
    if errors == [] then map[]
    else
      var last := errors[|errors| - 1];
      Collect(errors[..|errors| - 1])[last.path := last.msg]
  }

  /**
   * Returns the exception the source throws (`Some`), or `None` when it
   * returns normally because there are no errors.
   */
  method HandleValidationError(errors: seq<FieldError>) returns (thrown: Option<HttpException>)
    ensures thrown == None <==> errors == []
    ensures thrown.Some? ==> thrown.value == Validation(ValidationMessage, 400, FieldErrors(Collect(errors)))
  {
    if errors == [] {
      return None;
    }
    var validationErrors: map<string, string> := map[];
    var i := 0;
    while i < |errors|
      invariant 0 <= i <= |errors|
      invariant validationErrors == Collect(errors[..i])
    {
      assert errors[..i + 1][..i] == errors[..i];
      validationErrors := validationErrors[errors[i].path := errors[i].msg];
      i := i + 1;
    }
    assert errors[..|errors|] == errors;
    return Some(Validation(ValidationMessage, 400, FieldErrors(validationErrors)));
  }

  /** The dictionary's keys are exactly the paths of the errors. */
  lemma {:induction false} CollectKeys(errors: seq<FieldError>)
    ensures forall k :: k in Collect(errors) <==> exists i :: 0 <= i < |errors| && errors[i].path == k
    decreases |errors|
  {
    if errors != [] {
      var n := |errors| - 1;
      var front := errors[..n];
      CollectKeys(front);
      forall k | k in Collect(errors)
        ensures exists i :: 0 <= i < |errors| && errors[i].path == k
      {
        if k != errors[n].path {
          assert Collect(errors) == Collect(front)[errors[n].path := errors[n].msg];
          assert k in Collect(front);
          var i :| 0 <= i < |front| && front[i].path == k;
          assert errors[i] == front[i];
        }
      }
      forall k | exists i :: 0 <= i < |errors| && errors[i].path == k
        ensures k in Collect(errors)
      {
        var i :| 0 <= i < |errors| && errors[i].path == k;
        if i < n {
          assert front[i] == errors[i];
        }
      }
    }
  }

  /** For a repeated path the last error's message is the one kept. */
  lemma {:induction false} CollectLastWins(errors: seq<FieldError>, i: nat)
    requires i < |errors|
    requires forall j :: i < j < |errors| ==> errors[j].path != errors[i].path
    ensures errors[i].path in Collect(errors)
    ensures Collect(errors)[errors[i].path] == errors[i].msg
    decreases |errors|
  {
    var n := |errors| - 1;
    if i < n {
      var front := errors[..n];
      assert front[i] == errors[i];
      CollectLastWins(front, i);
    }
  }

  /** Every value of the dictionary is the message of some error with that key. */
  lemma {:induction false} CollectValuesFromErrors(errors: seq<FieldError>, k: string)
    requires k in Collect(errors)
    ensures exists i :: 0 <= i < |errors| && errors[i] == FieldError(k, Collect(errors)[k])
    decreases |errors|
  {
    var n := |errors| - 1;
    if errors[n].path != k {
      var front := errors[..n];
      CollectValuesFromErrors(front, k);
      var i :| 0 <= i < |front| && front[i] == FieldError(k, Collect(front)[k]);
      assert errors[i] == front[i];
    }
  }

  /** A thrown dictionary is never empty. */
  lemma {:induction false} ThrownMapNonEmpty(errors: seq<FieldError>)
    requires errors != []
    ensures |Collect(errors)| > 0
  {
    var n := |errors| - 1;
    assert errors[n].path in Collect(errors);
  }
}
