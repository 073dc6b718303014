/**
 * The memory form of the newer web client. Unlike the main client's form it
 * has no sign-in check and no trimming, reports failures through a single
 * `error` string instead of notifications, and tracks `isSubmitting`.
 */
module WebMemoryForm {
  import opened Wrappers
  import opened Ui
  import Auth

  /** The record handed to this client's `createMemory`. */
  datatype MemoryInput = MemoryInput(
    title: string, content: string, vaultId: string, userId: string, mediaUrl: Option<string>)

  datatype Call =
    | Upload(file: File)
    | CreateMemory(memory: MemoryInput)
    | MemoryCreated

  const RequiredMessage: string := "Required fields missing"
  const FailedMessage: string := "Failed to create memory"

  /** `!title || !content`: an empty string is falsy; white space is not. */
  predicate MissingFields(title: string, content: string) {
    title == [] || content == []
  }

  /** `user?.id || ''`. */
  function UserIdOf(user: Option<Auth.User>): string {
    if user.Some? then user.value.id else ""
  }

  /** The calls one submission makes. */
  function SubmitCalls(title: string, content: string, file: Option<File>, vaultId: string,
                       user: Option<Auth.User>, upload: Result<string>, created: bool): seq<Call>
  {
    if MissingFields(title, content) then []
    else if file.Some? && upload.Failure? then [Upload(file.value)]
    else
      var mediaUrl := if file.Some? then Some(upload.value) else None;
      (if file.Some? then [Upload(file.value)] else [])
        + [CreateMemory(MemoryInput(title, content, vaultId, UserIdOf(user), mediaUrl))]
        + (if created then [MemoryCreated] else [])
  }

  /** The error shown after one submission: set on a missing field or a failure, otherwise left as it was. */
  function SubmitError(error: string, title: string, content: string, file: Option<File>,
                       upload: Result<string>, created: bool): string
  {
    if MissingFields(title, content) then RequiredMessage
    else if (file.Some? && upload.Failure?) || !created then FailedMessage
    else error
  }

  class CreateMemoryForm {
    const vaultId: string
    var title: string
    var content: string
    var file: Option<File>
    var error: string
    var isSubmitting: bool
    var calls: seq<Call>

    constructor (vaultId: string)
      ensures this.vaultId == vaultId
      ensures title == "" && content == "" && file == None && error == "" && !isSubmitting && calls == []
    {
      this.vaultId := vaultId;
      title, content, file, error := "", "", None, "";
      isSubmitting, calls := false, [];
    }

    /** `handleSubmit`; `upload` is what `uploadFile` resolves or rejects with, `created` whether
        `createMemory` resolved. */
    method HandleSubmit(user: Option<Auth.User>, upload: Result<string>, created: bool)
      modifies this`error, this`isSubmitting, this`calls
      ensures calls == old(calls) + SubmitCalls(title, content, file, vaultId, user, upload, created)
      ensures error == SubmitError(old(error), title, content, file, upload, created)
      ensures isSubmitting == if MissingFields(title, content) then old(isSubmitting) else false
    {
      if title == [] || content == [] {
        error := RequiredMessage;
        return;
      }
      isSubmitting := true;
      var mediaUrl: Option<string> := None;
      if file.Some? {
        calls := calls + [Upload(file.value)];
        if upload.Failure? {
          isSubmitting := false;
          error := FailedMessage;
          return;
        }
        mediaUrl := Some(upload.value);
      }
      ghost var before := calls;
      calls := calls + [CreateMemory(MemoryInput(title, content, vaultId, UserIdOf(user), mediaUrl))];
      if !created {
        isSubmitting := false;
        error := FailedMessage;
        return;
      }
      isSubmitting := false;
      calls := calls + [MemoryCreated];
      assert calls == before + [CreateMemory(MemoryInput(title, content, vaultId, UserIdOf(user), mediaUrl))]
                             + [MemoryCreated];
    }
  }

  /** An empty title or content gives the required-fields error and no request. */
  lemma MissingFieldsStopSubmit(title: string, content: string, file: Option<File>, vaultId: string,
                                user: Option<Auth.User>, upload: Result<string>, created: bool, error: string)
    requires MissingFields(title, content)
    ensures SubmitCalls(title, content, file, vaultId, user, upload, created) == []
    ensures SubmitError(error, title, content, file, upload, created) == RequiredMessage
  {
  }

  /** Nothing is trimmed: a title and content made only of spaces still reach `createMemory`. */
  lemma {:induction false} BlankFieldsPass(vaultId: string, user: Option<Auth.User>, created: bool)
    ensures CreateMemory(MemoryInput(" ", " ", vaultId, UserIdOf(user), None))
            in SubmitCalls(" ", " ", None, vaultId, user, Failure("unused"), created)
  {
    var c := SubmitCalls(" ", " ", None, vaultId, user, Failure("unused"), created);
    assert c[0] == CreateMemory(MemoryInput(" ", " ", vaultId, UserIdOf(user), None));
  }

  /** An upload happens exactly when the fields are filled and a file is chosen; it is the first call,
      and the create that follows carries its URL. Without a file the record has no media URL. */
  lemma UploadBeforeCreate(title: string, content: string, file: Option<File>, vaultId: string,
                           user: Option<Auth.User>, upload: Result<string>, created: bool)
    ensures var c := SubmitCalls(title, content, file, vaultId, user, upload, created);
            && ((exists i :: 0 <= i < |c| && c[i].Upload?) <==> !MissingFields(title, content) && file.Some?)
            && (forall i :: 0 <= i < |c| && c[i].Upload? ==> i == 0 && c[i].file == file.value)
            && (forall i :: 0 <= i < |c| && c[i].CreateMemory? ==>
                  c[i].memory.mediaUrl == (if file.Some? then Some(upload.value) else None))
  {
    var c := SubmitCalls(title, content, file, vaultId, user, upload, created);
    if !MissingFields(title, content) && file.Some? {
      assert c[0].Upload?;
    }
  }

  /** Without a signed-in user the form still creates the memory, with an empty user id. */
  lemma {:induction false} SignedOutCreatesWithEmptyUser(title: string, content: string, vaultId: string, created: bool)
    requires !MissingFields(title, content)
    ensures SubmitCalls(title, content, None, vaultId, None, Failure("unused"), created)[0]
            == CreateMemory(MemoryInput(title, content, vaultId, "", None))
  {
  }

  /** `onMemoryCreated` is called exactly when the fields are filled, the upload (if any) succeeds and the
      create succeeds; the error is then untouched. On any failure after validation the error is the
      failure message and the callback is not called. */
  lemma CallbackOnlyOnSuccess(title: string, content: string, file: Option<File>, vaultId: string,
                              user: Option<Auth.User>, upload: Result<string>, created: bool, error: string)
    ensures var c := SubmitCalls(title, content, file, vaultId, user, upload, created);
            var ok := !MissingFields(title, content) && (file.None? || upload.Success?) && created;
            && (MemoryCreated in c <==> ok)
            && (ok ==> SubmitError(error, title, content, file, upload, created) == error)
            && (!MissingFields(title, content) && !ok ==>
                  SubmitError(error, title, content, file, upload, created) == FailedMessage)
  {
  }

  /** The error is never cleared: once set, every later submission leaves a non-empty error. */
  lemma ErrorNeverCleared(error: string, title: string, content: string, file: Option<File>,
                          upload: Result<string>, created: bool)
    requires error != ""
    ensures SubmitError(error, title, content, file, upload, created) != ""
  {
  }
}
