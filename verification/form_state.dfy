/**
 * The `useForm` hook (hooks/useForm.ts): field values, field errors and the
 * `isSubmitting` flag, updated by the hook's five handlers.
 */
module FormState {
  import opened Wrappers

  /** Which way `handleSubmit` went. */
  datatype SubmitPath =
    | Rejected     // `validate` reported errors; `onSubmit` was not called
    | Submitted    // `onSubmit` ran to completion
    | SubmitThrew  // `onSubmit` threw; the error was logged and swallowed

  class Form {
    const initialValues: map<string, string>
    /** The optional `validate` option. */
    const validate: Option<map<string, string> -> map<string, string>>

    var values: map<string, string>
    var errors: map<string, string>
    var isSubmitting: bool
    /** The values `onSubmit` has been called with, in order. */
    var submissions: seq<map<string, string>>

    constructor (initialValues: map<string, string>, validate: Option<map<string, string> -> map<string, string>>)
      ensures this.initialValues == initialValues && this.validate == validate
      ensures values == initialValues && errors == map[] && !isSubmitting && submissions == []
    {
      this.initialValues := initialValues;
      this.validate := validate;
      values := initialValues;
      errors := map[];
      isSubmitting := false;
      submissions := [];
    }

    /**
     * `handleChange(name, value)`: sets one field; if that field showed an
     * error, the error is blanked (the entry stays, holding "").
     */
    method HandleChange(name: string, value: string)
      modifies this
      ensures values == old(values)[name := value]
      ensures old(name in errors && errors[name] != "") ==> errors == old(errors)[name := ""]
      ensures !old(name in errors && errors[name] != "") ==> errors == old(errors)
      ensures isSubmitting == old(isSubmitting) && submissions == old(submissions)
    {
      values := values[name := value];
      if name in errors && errors[name] != "" {
        errors := errors[name := ""];
      }
    }

    /**
     * `handleSubmit(e)`. `onSubmitThrows` says whether the awaited `onSubmit`
     * rejects; either way the error is swallowed and `isSubmitting` ends false.
     */
    method HandleSubmit(onSubmitThrows: bool) returns (path: SubmitPath)
      modifies this
      ensures !isSubmitting
      ensures values == old(values)
      ensures var found := if validate.Some? then validate.value(old(values)) else map[];
              if |found| > 0 then
                path == Rejected && errors == found && submissions == old(submissions)
              else
                && path == (if onSubmitThrows then SubmitThrew else Submitted)
                && errors == map[]
                && submissions == old(submissions) + [old(values)]
    {
      isSubmitting := true;
      if validate.Some? {
        var validationErrors := validate.value(values);
        if |validationErrors| > 0 {
          errors := validationErrors;
          isSubmitting := false;
          return Rejected;
        }
      }
      errors := map[];
      submissions := submissions + [values];
      path := if onSubmitThrows then SubmitThrew else Submitted;
      isSubmitting := false;
    }

    /** `setFieldError(field, error)`. */
    method SetFieldError(field: string, error: string)
      modifies this
      ensures errors == old(errors)[field := error]
      ensures values == old(values) && isSubmitting == old(isSubmitting) && submissions == old(submissions)
    {
      errors := errors[field := error];
    }

    /** `clearErrors()`. */
    method ClearErrors()
      modifies this
      ensures errors == map[]
      ensures values == old(values) && isSubmitting == old(isSubmitting) && submissions == old(submissions)
    {
      errors := map[];
    }

    /** `reset()`: back to the initial values, no errors, not submitting. */
    method Reset()
      modifies this
      ensures values == initialValues && errors == map[] && !isSubmitting
      ensures submissions == old(submissions)
    {
      values := initialValues;
      errors := map[];
      isSubmitting := false;
    }
  }
}
