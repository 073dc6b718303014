/**
 * The form that adds a thread to a memory. The form library validates the
 * values against `createThreadSchema` before the submit handler runs; the
 * handler ignores a submit while one is pending, sends the create, and on its
 * outcome resets or keeps the content, notifies, and clears `isSubmitting`.
 * A submission is split at its one `await`: `Submit` runs up to the create
 * request, `Complete` runs once the request settles.
 */
module ThreadForm {
  import opened Ui
  import opened Wrappers
  import Schema

  datatype Call =
    | CreateThread(input: Schema.CreateThreadInput)
    | ShowToast(toast: Toast)
    | Succeeded

  const SuccessToast: Toast := Toast("Success", "Thread created successfully")
  const ErrorToast: Toast := Toast("Error", "Failed to create thread")

  /** The form's state: the entered content, the pending flag, the calls made so far. */
  datatype FormState = FormState(content: string, isSubmitting: bool, calls: seq<Call>)

  /** The values the form library validates: the memory id, the content, no parent. */
  function Values(memoryId: string, content: string): Schema.CreateThreadInput {
    Schema.CreateThreadInput(memoryId, content, None)
  }

  /** Submitting: nothing unless the values pass the schema and no submission is pending. */
  function SubmitStep(s: FormState, f: Schema.Formats, memoryId: string): FormState {
    if !Schema.ValidCreateThread(f, Values(memoryId, s.content)) || s.isSubmitting then s
    else s.(isSubmitting := true, calls := s.calls + [CreateThread(Values(memoryId, s.content))])
  }

  /** The create settled: `ok` when it resolved. */
  function CompleteStep(s: FormState, ok: bool, hasOnSuccess: bool): FormState {
    if ok then
      s.(content := "", isSubmitting := false,
         calls := s.calls + [ShowToast(SuccessToast)] + (if hasOnSuccess then [Succeeded] else []))
    else
      s.(isSubmitting := false, calls := s.calls + [ShowToast(ErrorToast)])
  }

  class CreateThreadForm {
    const memoryId: string
    /** Whether the optional `onSuccess` prop was given. */
    const hasOnSuccess: bool
    var content: string
    var isSubmitting: bool
    var calls: seq<Call>

    function State(): FormState
      reads this
    {
      FormState(content, isSubmitting, calls)
    }

    constructor (memoryId: string, hasOnSuccess: bool)
      ensures this.memoryId == memoryId && this.hasOnSuccess == hasOnSuccess
      ensures State() == FormState("", false, [])
    {
      this.memoryId, this.hasOnSuccess := memoryId, hasOnSuccess;
      content, isSubmitting, calls := "", false, [];
    }

    /** `form.handleSubmit(onSubmit)` up to the `await` of `createThread`. */
    method Submit(f: Schema.Formats)
      modifies this
      ensures State() == SubmitStep(old(State()), f, memoryId)
    {
      if !Schema.ValidCreateThread(f, Values(memoryId, content)) {
        return;
      }
      if isSubmitting {
        return;
      }
      isSubmitting := true;
      calls := calls + [CreateThread(Schema.CreateThreadInput(memoryId, content, None))];
    }

    /** The rest of `onSubmit` once `createThread` resolved (`ok`) or rejected. */
    method Complete(ok: bool)
      modifies this
      ensures State() == CompleteStep(old(State()), ok, hasOnSuccess)
    {
      if ok {
        content := "";
        calls := calls + [ShowToast(SuccessToast)];
        if hasOnSuccess {
          calls := calls + [Succeeded];
        }
      } else {
        calls := calls + [ShowToast(ErrorToast)];
      }
      isSubmitting := false;
    }
  }

  /** A submit that arrives while one is pending changes nothing. */
  lemma PendingSubmitIgnored(s: FormState, f: Schema.Formats, memoryId: string)
    requires s.isSubmitting
    ensures SubmitStep(s, f, memoryId) == s
  {
  }

  /** Content the schema rejects, the empty content and content over 1000 characters among it,
      never reaches `createThread`. */
  lemma InvalidContentNeverSent(s: FormState, f: Schema.Formats, memoryId: string)
    requires s.content == [] || |s.content| > 1000
    ensures SubmitStep(s, f, memoryId) == s
  {
  }

  /** A submit that starts sends exactly one create, with the form's memory id, the entered content
      and no parent, and marks the form pending. */
  lemma SubmitSendsCreate(s: FormState, f: Schema.Formats, memoryId: string)
    requires !s.isSubmitting
    ensures var t := SubmitStep(s, f, memoryId);
            (t != s <==> f.isUuid(memoryId) && 1 <= |s.content| <= 1000)
            && (t != s ==> t.isSubmitting && t.content == s.content
                           && t.calls == s.calls + [CreateThread(Schema.CreateThreadInput(memoryId, s.content, None))])
  {
    var t := SubmitStep(s, f, memoryId);
    if f.isUuid(memoryId) && 1 <= |s.content| <= 1000 {
      assert |t.calls| == |s.calls| + 1;
    }
  }

  /** A whole submission that succeeds: create, success toast, then `onSuccess`; the content is reset
      and the form is no longer pending. */
  lemma SuccessfulSubmission(s: FormState, f: Schema.Formats, memoryId: string)
    requires !s.isSubmitting && Schema.ValidCreateThread(f, Values(memoryId, s.content))
    ensures var t := CompleteStep(SubmitStep(s, f, memoryId), true, true);
            t.content == "" && !t.isSubmitting
            && t.calls == s.calls + [CreateThread(Values(memoryId, s.content)), ShowToast(SuccessToast), Succeeded]
  {
  }

  /** A whole submission that fails: create, error toast, no `onSuccess`; the content is kept. */
  lemma FailedSubmission(s: FormState, f: Schema.Formats, memoryId: string, hasOnSuccess: bool)
    requires !s.isSubmitting && Schema.ValidCreateThread(f, Values(memoryId, s.content))
    ensures var t := CompleteStep(SubmitStep(s, f, memoryId), false, hasOnSuccess);
            t.content == s.content && !t.isSubmitting
            && t.calls == s.calls + [CreateThread(Values(memoryId, s.content)), ShowToast(ErrorToast)]
            && Succeeded !in t.calls[|s.calls|..]
  {
    var t := CompleteStep(SubmitStep(s, f, memoryId), false, hasOnSuccess);
    assert t.calls[|s.calls|..] == [CreateThread(Values(memoryId, s.content)), ShowToast(ErrorToast)];
  }

  /** Whatever the outcome, the form is no longer pending afterwards. */
  lemma CompleteClearsPending(s: FormState, ok: bool, hasOnSuccess: bool)
    ensures !CompleteStep(s, ok, hasOnSuccess).isSubmitting
  {
  }
}
