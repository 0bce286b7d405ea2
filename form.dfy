/**
 * The form state machine of src/components/Form/DynamicForm.tsx: the pure
 * reducer over the five actions, and the component's imperative driver (the
 * re-validation effect and the submit handler) as a class whose one field is
 * the reducer state.
 */
module Form {
  import opened Wrappers
  import opened Types
  import opened Validation

  datatype FormAction =
    | SetFieldValue(field: Field, value: string)
    | SetFieldError(field: Field, error: Option<string>)
    | SetTouched(field: Field)
    | SetSubmitting(isSubmitting: bool)
    | ResetForm

  /** Empty values, no errors, nothing touched, not submitting. */
  const InitialState := FormState(FormValues("", "", ""), map[], {}, false)

  /** `Object.keys(state.values)`: the key order of the initial values. */
  const FieldOrder := [Name, Email, Password]

  const AllFields := {Name, Email, Password}

  /** `formReducer`: each action touches one component of the state and leaves the rest alone. */
  function Reduce(state: FormState, action: FormAction): (r: FormState)
    ensures action.SetFieldValue? ==>
      && Get(r.values, action.field) == action.value
      && (forall g :: g != action.field ==> Get(r.values, g) == Get(state.values, g))
      && r.errors == state.errors && r.touched == state.touched
      && r.isSubmitting == state.isSubmitting
    ensures action.SetFieldError? ==>
      && r.errors.Keys == state.errors.Keys + {action.field}
      && r.errors[action.field] == action.error
      && (forall g :: g in state.errors && g != action.field ==> r.errors[g] == state.errors[g])
      && r.values == state.values && r.touched == state.touched
      && r.isSubmitting == state.isSubmitting
    ensures action.SetTouched? ==>
      && r.touched == state.touched + {action.field}
      && r.values == state.values && r.errors == state.errors
      && r.isSubmitting == state.isSubmitting
    ensures action.SetSubmitting? ==>
      && r.isSubmitting == action.isSubmitting
      && r.values == state.values && r.errors == state.errors && r.touched == state.touched
    ensures action.ResetForm? ==>
      && (forall g :: Get(r.values, g) == "")
      && r.errors == map[] && r.touched == {} && !r.isSubmitting
    ensures !action.ResetForm? ==> state.touched <= r.touched
  {
    match action
    case SetFieldValue(field, value) => state.(values := With(state.values, field, value))
    case SetFieldError(field, error) => state.(errors := state.errors[field := error])
    case SetTouched(field) => state.(touched := state.touched + {field})
    case SetSubmitting(isSubmitting) => state.(isSubmitting := isSubmitting)
    case ResetForm => InitialState
  }

  /** JavaScript truthiness of an error entry: `null` and the empty string are falsy. */
  predicate Truthy(error: Option<string>)
  {
    error.Some? && error.value != ""
  }

  /** `Object.values(state.errors).some(error => error)` */
  predicate HasErrors(errors: FormErrors)
  {
    exists f :: f in errors && Truthy(errors[f])
  }

  /** Every field's error is what its rule says of its current value. */
  predicate ErrorsConsistent(state: FormState)
  {
    forall f :: f in state.errors && state.errors[f] == Validate(f, Get(state.values, f))
  }

  /** Every field passes its rule. */
  predicate AllValid(values: FormValues)
  {
    forall f :: Validate(f, Get(values, f)) == None
  }

  /** The state the re-validation effect leaves behind. */
  function Revalidated(state: FormState): (r: FormState)
    ensures ErrorsConsistent(r)
    ensures r.values == state.values && r.touched == state.touched
    ensures r.isSubmitting == state.isSubmitting
  {
    FieldsAreAllFields();
    state.(errors := map f | f in AllFields :: Validate(f, Get(state.values, f)))
  }

  lemma FieldsAreAllFields()
    ensures forall f: Field :: f in AllFields
  {
    forall f: Field ensures f in AllFields {
      match f
      case Name =>
      case Email =>
      case Password =>
    }
  }

  /**
   * Once errors are consistent with the values, the submit guard rejects
   * exactly the forms in which some field fails its rule.
   */
  lemma SubmitGuardMatchesRules(state: FormState)
    requires ErrorsConsistent(state)
    ensures HasErrors(state.errors) <==> !AllValid(state.values)
  {
    if !AllValid(state.values) {
      var f :| Validate(f, Get(state.values, f)) != None;
      assert Truthy(state.errors[f]);
    }
  }

  /**
   * The guard reads only truthiness: an entry that is null or "" never blocks
   * a submit, a non-empty message always does, and the other entries decide
   * the rest.
   */
  lemma GuardReadsTruthiness(errors: FormErrors, field: Field, error: Option<string>)
    ensures HasErrors(errors[field := error]) <==> Truthy(error) || HasErrors(errors - {field})
  {
    var updated := errors[field := error];
    if HasErrors(updated) && !Truthy(error) {
      var f :| f in updated && Truthy(updated[f]);
      assert f in errors - {field};
    }
    if HasErrors(errors - {field}) {
      var f :| f in errors - {field} && Truthy(errors[f]);
      assert updated[f] == errors[f];
    }
    if Truthy(error) {
      assert Truthy(updated[field]);
    }
  }

  /** Blurring a field twice is the same as blurring it once. */
  lemma SetTouchedIdempotent(state: FormState, field: Field)
    ensures var once := Reduce(state, SetTouched(field));
      Reduce(once, SetTouched(field)) == once && field in once.touched
  {
  }

  /**
   * After a successful submit the values are reset, so the effect runs again:
   * every field then reports that it is required and the next submit is blocked.
   */
  lemma ResetThenRevalidateBlocksSubmit()
    ensures var r := Revalidated(InitialState);
      && r.errors == map[Name := Some(NameRequired), Email := Some(EmailRequired),
                         Password := Some(PasswordRequired)]
      && HasErrors(r.errors) && !r.isSubmitting && r.touched == {}
  {
    var r := Revalidated(InitialState);
    assert Truthy(r.errors[Name]);
  }

  /** Name "A", email "bad", password "abc123": name and email fail, password passes, submit is blocked. */
  lemma RejectedSubmitExample(state: FormState)
    requires state.values == FormValues("A", "bad", "abc123")
    ensures var r := Revalidated(state);
      && r.errors[Name] == Some(NameTooShort)
      && r.errors[Email] == Some(EmailInvalid)
      && r.errors[Password] == None
      && HasErrors(r.errors)
  {
    PasswordExamples();
    var r := Revalidated(state);
    assert Truthy(r.errors[Name]);
  }

  class DynamicForm {
    var state: FormState

    /** Errors agree with the values: what the effect leaves behind after every render that changed the values. */
    ghost predicate Valid()
      reads this
    {
      ErrorsConsistent(state)
    }

    /**
     * The form as mounted: `useReducer(formReducer, initialState)`, after which
     * the effect runs once for the first render, so every field reports that it
     * is required.
     */
    constructor ()
      ensures state == Revalidated(InitialState) && Valid()
      ensures HasErrors(state.errors)
    {
      state := Revalidated(InitialState);
      ResetThenRevalidateBlocksSubmit();
    }

    method Dispatch(action: FormAction)
      modifies this
      ensures state == Reduce(old(state), action)
    {
      state := Reduce(state, action);
    }

    /**
     * The effect that runs after every change of the values: it dispatches
     * SET_FIELD_ERROR for each field in key order, validating the values it
     * captured when it started.
     */
    method Revalidate()
      modifies this
      ensures state == Revalidated(old(state))
    {
      var values := state.values;
      var i := 0;
      while i < |FieldOrder|
        invariant 0 <= i <= |FieldOrder|
        invariant state.values == values
        invariant state.touched == old(state.touched)
        invariant state.isSubmitting == old(state.isSubmitting)
        invariant forall j :: 0 <= j < i ==>
          FieldOrder[j] in state.errors && state.errors[FieldOrder[j]] == Validate(FieldOrder[j], Get(values, FieldOrder[j]))
      {
        var field := FieldOrder[i];
        Dispatch(SetFieldError(field, Validate(field, Get(values, field))));
        i := i + 1;
      }
      forall f ensures f in state.errors && state.errors[f] == Validate(f, Get(values, f)) {
        var j := match f case Name => 0 case Email => 1 case Password => 2;
        assert FieldOrder[j] == f;
      }
      assert state.errors.Keys == AllFields;
    }

    /** An edit (`handleChange`) followed by the effect it triggers. */
    method Edit(field: Field, value: string)
      modifies this
      ensures state == Revalidated(Reduce(old(state), SetFieldValue(field, value)))
      ensures Get(state.values, field) == value && Valid()
    {
      Dispatch(SetFieldValue(field, value));
      Revalidate();
    }

    /**
     * `handleSubmit`. The outcome of the host's asynchronous submit callback
     * is the parameter `submitSucceeds`; `sent` is what was passed to it
     * (None when the guard rejected the submit and it was never called),
     * `pending` is the state while the callback was awaited and `settled` the
     * state once the handler's dispatches are done. A successful submit
     * replaces the edited values by those of `initialState`, so the effect
     * runs again afterwards.
     */
    method HandleSubmit(submitSucceeds: bool)
      returns (sent: Option<FormValues>, ghost pending: FormState, ghost settled: FormState)
      modifies this
      ensures sent == if HasErrors(old(state).errors) then None else Some(old(state).values)
      ensures sent.Some? && old(Valid()) ==> AllValid(sent.value)
      ensures HasErrors(old(state).errors) ==> state == old(state) && settled == old(state)
      ensures sent.Some? ==> pending == old(state).(isSubmitting := true)
      ensures sent.Some? && submitSucceeds ==>
        settled == InitialState && state == Revalidated(InitialState)
      ensures sent.Some? && !submitSucceeds ==>
        settled == old(state).(isSubmitting := false) && state == settled
      ensures old(Valid()) ==> Valid()
    {
      pending := state;
      if HasErrors(state.errors) {
        settled := state;
        return None, pending, settled;
      }
      if Valid() {
        SubmitGuardMatchesRules(state);
      }
      sent := Some(state.values);
      Dispatch(SetSubmitting(true));
      pending := state;
      if submitSucceeds {
        Dispatch(ResetForm);
      }
      Dispatch(SetSubmitting(false));
      settled := state;
      if submitSucceeds {
        Revalidate();
      }
    }
  }

  /** "Ada", "a@b.co" and "abc123" pass all three rules. */
  lemma ValidValuesExample()
    ensures AllValid(FormValues("Ada", "a@b.co", "abc123"))
  {
    EmailExamples();
    PasswordExamples();
    forall f ensures Validate(f, Get(FormValues("Ada", "a@b.co", "abc123"), f)) == None { }
  }

  /** Filling in three valid values and submitting successfully resets the form. */
  method ValidSubmitExample()
  {
    var form := new DynamicForm();
    form.Edit(Name, "Ada");
    form.Edit(Email, "a@b.co");
    form.Edit(Password, "abc123");
    assert form.state.values == FormValues("Ada", "a@b.co", "abc123");
    ValidValuesExample();
    SubmitGuardMatchesRules(form.state);
    var sent, _, _ := form.HandleSubmit(true);
    assert sent == Some(FormValues("Ada", "a@b.co", "abc123"));
    assert form.state == Revalidated(InitialState);
  }
}
