/**
 * The memory creation form of the main client: its fields, the submit
 * handler (sign-in check, required fields, optional upload, create,
 * notifications, loading flag) and the two pure steps it runs on the way,
 * tag parsing and story composition. The submit handler records every call
 * it makes in `calls`; what the upload and the create answer is a parameter.
 */
module MemoryForm {
  import opened Wrappers
  import opened Text
  import opened Ui
  import Seqs
  import Rows
  import Auth

  /** The form's memory type: `'text' | 'audio' | 'photo'`. */
  datatype Kind = TextKind | AudioKind | PhotoKind

  function KindName(k: Kind): string {
    match k
    case TextKind => "text"
    case AudioKind => "audio"
    case PhotoKind => "photo"
  }

  /** The pieces, each trimmed, without those that trim to nothing: the
      `.map(tag => tag.trim()).filter(tag => tag.length > 0)` chain in one pass. */
  function KeepTags(pieces: seq<string>): (tags: seq<string>)
    ensures |tags| <= |pieces|
    ensures forall i :: 0 <= i < |tags| ==> tags[i] != [] && NoOuterSpace(tags[i])
  {
    if pieces == [] then []
    else
      var t := Trim(pieces[0]);
      (if t != [] then [t] else []) + KeepTags(pieces[1..])
  }

  /** Some piece trims to `x`. */
  ghost predicate TrimsTo(pieces: seq<string>, x: string) {
    exists i :: 0 <= i < |pieces| && Trim(pieces[i]) == x
  }

  /** A string is kept exactly when it is the non-empty trim of one of the pieces. */
  lemma {:induction false} KeepTagsMembership(pieces: seq<string>, x: string)
    ensures x in KeepTags(pieces) <==> x != [] && TrimsTo(pieces, x)
  {
    if pieces != [] {
      KeepTagsMembership(pieces[1..], x);
      if exists i :: 0 <= i < |pieces| && Trim(pieces[i]) == x {
        var i :| 0 <= i < |pieces| && Trim(pieces[i]) == x;
        if i > 0 {
          assert pieces[1..][i - 1] == pieces[i];
        }
      }
      if exists i :: 0 <= i < |pieces| - 1 && Trim(pieces[1..][i]) == x {
        var i :| 0 <= i < |pieces| - 1 && Trim(pieces[1..][i]) == x;
        assert pieces[i + 1] == pieces[1..][i];
      }
    }
  }

  lemma {:induction false} KeepTagsConcat(a: seq<string>, b: seq<string>)
    ensures KeepTags(a + b) == KeepTags(a) + KeepTags(b)
  {
    if a == [] {
      assert a + b == b;
    } else {
      assert (a + b)[0] == a[0];
      assert (a + b)[1..] == a[1..] + b;
      KeepTagsConcat(a[1..], b);
    }
  }

  /** `tags.split(',').map(tag => tag.trim()).filter(tag => tag.length > 0)`. */
  function ParseTags(input: string): (tags: seq<string>)
    ensures |tags| <= Count(input, ',') + 1
    ensures forall i :: 0 <= i < |tags| ==> tags[i] != [] && NoOuterSpace(tags[i])
  {
    KeepTags(Split(input, ','))
  }

  /** A tag is parsed exactly when it is the non-empty trim of some comma-separated piece. */
  lemma {:induction false} ParseTagsMembership(input: string, x: string)
    ensures x in ParseTags(input) <==> x != [] && TrimsTo(Split(input, ','), x)
  {
    var pieces := Split(input, ',');
    KeepTagsMembership(pieces, x);
    assert ParseTags(input) == KeepTags(pieces);
  }

  /** Tags keep their input order: the tags of text joined by a comma are the tags of the left part
      followed by the tags of the right part. */
  lemma ParseTagsConcat(a: string, b: string)
    ensures ParseTags(a + "," + b) == ParseTags(a) + ParseTags(b)
  {
    SplitAt(a, b, ',');
    KeepTagsConcat(Split(a, ','), Split(b, ','));
  }

  const AudioOpen: string := "\n\n[Audio: "
  const PhotoOpen: string := "\n\n[Photo: "

  /** The story the form stores: the entered story, with a bracketed link for audio and photo memories. */
  function ComposeStory(story: string, kind: Kind, audioUrl: string, photoUrl: string): (r: string)
    ensures |story| <= |r| && r[..|story|] == story
    ensures kind == TextKind ==> r == story
    ensures kind == AudioKind ==> |r| == |story| + |AudioOpen| + |audioUrl| + 1
    ensures kind == PhotoKind ==> |r| == |story| + |PhotoOpen| + |photoUrl| + 1
  {
    match kind
    case AudioKind => story + AudioOpen + audioUrl + "]"
    case PhotoKind => story + PhotoOpen + photoUrl + "]"
    case TextKind => story
  }

  /** The link can be read back out of the composed story: marker, URL, closing bracket, in that order. */
  lemma {:induction false} ComposedStoryCarriesUrl(story: string, kind: Kind, audioUrl: string, photoUrl: string)
    requires kind != TextKind
    ensures var r := ComposeStory(story, kind, audioUrl, photoUrl);
            var open := if kind == AudioKind then AudioOpen else PhotoOpen;
            var url := if kind == AudioKind then audioUrl else photoUrl;
            |r| == |story| + |open| + |url| + 1 &&
            r[|story|..|story| + |open|] == open &&
            r[|story| + |open|..|r| - 1] == url &&
            r[|r| - 1] == ']'
  {
    var r := ComposeStory(story, kind, audioUrl, photoUrl);
    var open := if kind == AudioKind then AudioOpen else PhotoOpen;
    var url := if kind == AudioKind then audioUrl else photoUrl;
    assert r == story + open + url + "]";
  }

  /** The calendar disables every day up to now: only a strictly later date can be picked. */
  predicate CanPickUnlockDate(date: int, now: int) {
    date > now
  }

  /** `${vaultId}/${Date.now()}-${file.name}`. */
  function UploadPath(vaultId: string, now: nat, file: File): string {
    vaultId + "/" + NatToDecimal(now) + "-" + file.name
  }

  const AuthErrorToast: Toast := Toast("Authentication error", "You must be signed in to create a memory")
  const MissingFieldsToast: Toast := Toast("Required fields missing", "Please fill in title and story")
  const CreatedToast: Toast := Toast("Memory created", "Your memory has been saved successfully")
  const FailedToast: Toast := Toast("Failed to create memory", "An error occurred while saving your memory")

  /** What the submit handler does in the world, in order. */
  datatype Call =
    | Upload(bucket: string, path: string, file: File)
    | CreateMemory(draft: Rows.MemoryDraft)
    | ShowToast(toast: Toast)
    | MemoryCreated

  /** The form's state variables, apart from the loading flag. */
  datatype FormFields = FormFields(
    title: string, story: string, kind: Kind, tags: string, unlockDate: Option<int>,
    audioFile: Option<File>, photoFile: Option<File>)

  /** Signed in, and neither title nor story blank. */
  predicate PassesGuards(f: FormFields, user: Option<Auth.User>) {
    user.Some? && !IsBlank(f.title) && !IsBlank(f.story)
  }

  /** The one upload a submission makes, if any: the audio file for an audio memory, the photo for a photo memory. */
  function PlannedUpload(f: FormFields, vaultId: string, now: nat): Option<Call> {
    if f.kind == AudioKind && f.audioFile.Some? then
      Some(Upload("audio", UploadPath(vaultId, now, f.audioFile.value), f.audioFile.value))
    else if f.kind == PhotoKind && f.photoFile.Some? then
      Some(Upload("photos", UploadPath(vaultId, now, f.photoFile.value), f.photoFile.value))
    else None
  }

  /** The record `createMemory` receives, given the uploaded URL ('' when nothing was uploaded). */
  function DraftFor(f: FormFields, vaultId: string, userId: string, url: string): Rows.MemoryDraft {
    var audioUrl := if f.kind == AudioKind then url else "";
    var photoUrl := if f.kind == PhotoKind then url else "";
    Rows.MemoryDraft(vaultId, f.title, ComposeStory(f.story, f.kind, audioUrl, photoUrl), KindName(f.kind),
                     userId, ParseTags(f.tags), f.unlockDate)
  }

  /** The calls of the `try` block: the upload, then the create and the outcome toast. */
  function SaveCalls(f: FormFields, vaultId: string, userId: string, now: nat,
                     upload: Result<string>, created: bool): seq<Call>
  {
    var up := PlannedUpload(f, vaultId, now);
    if up.Some? && upload.Failure? then [up.value, ShowToast(FailedToast)]
    else
      var ups := if up.Some? then [up.value] else [];
      var url := if up.Some? then upload.value else "";
      ups + [CreateMemory(DraftFor(f, vaultId, userId, url))]
          + (if created then [ShowToast(CreatedToast), MemoryCreated] else [ShowToast(FailedToast)])
  }

  /** The calls one submission makes. */
  function SubmitCalls(f: FormFields, vaultId: string, user: Option<Auth.User>, now: nat,
                       upload: Result<string>, created: bool): seq<Call>
  {
    if user.None? then [ShowToast(AuthErrorToast)]
    else if IsBlank(f.title) || IsBlank(f.story) then [ShowToast(MissingFieldsToast)]
    else SaveCalls(f, vaultId, user.value.id, now, upload, created)
  }

  class CreateMemoryForm {
    const vaultId: string
    var title: string
    var story: string
    var kind: Kind
    var tags: string
    var unlockDate: Option<int>
    var audioFile: Option<File>
    var photoFile: Option<File>
    var isLoading: bool
    var calls: seq<Call>

    function Current(): FormFields
      reads this
    {
      FormFields(title, story, kind, tags, unlockDate, audioFile, photoFile)
    }

    constructor (vaultId: string)
      ensures this.vaultId == vaultId
      ensures Current() == FormFields("", "", TextKind, "", None, None, None)
      ensures !isLoading && calls == []
    {
      this.vaultId := vaultId;
      title, story, kind, tags := "", "", TextKind, "";
      unlockDate, audioFile, photoFile := None, None, None;
      isLoading, calls := false, [];
    }

    /** The calendar's `onSelect`: a day it has not disabled becomes the unlock date. */
    method PickUnlockDate(date: int, now: int)
      modifies this`unlockDate
      ensures unlockDate == if CanPickUnlockDate(date, now) then Some(date) else old(unlockDate)
    {
      if date > now {
        unlockDate := Some(date);
      }
    }

    /** `handleSubmit`. `now` is `Date.now()`; `upload` is what `uploadFile` resolves or rejects with;
        `created` says whether `createMemory` resolved. */
    method HandleSubmit(user: Option<Auth.User>, now: nat, upload: Result<string>, created: bool)
      modifies this`isLoading, this`calls
      ensures calls == old(calls) + SubmitCalls(old(Current()), vaultId, user, now, upload, created)
      ensures isLoading == if PassesGuards(Current(), user) then false else old(isLoading)
    {
      if user.None? {
        calls := calls + [ShowToast(AuthErrorToast)];
        return;
      }
      if Trim(title) == [] || Trim(story) == [] {
        calls := calls + [ShowToast(MissingFieldsToast)];
        return;
      }
      isLoading := true;
      Save(user.value.id, now, upload, created);
      isLoading := false;
    }

    /** The `try` block of `handleSubmit`, whose `catch` turns any failure into the failure toast. */
    method Save(userId: string, now: nat, upload: Result<string>, created: bool)
      modifies this`calls
      ensures calls == old(calls) + SaveCalls(Current(), vaultId, userId, now, upload, created)
    {
      ghost var f := Current();
      ghost var up := PlannedUpload(f, vaultId, now);
      ghost var ups := if up.Some? then [up.value] else [];
      var audioUrl, photoUrl, failed := UploadAttachment(now, upload);
      ghost var mid := calls;
      assert mid == old(calls) + ups;
      if failed {
        calls := calls + [ShowToast(FailedToast)];
      } else {
        ghost var url := if up.Some? then upload.value else "";
        var tagsArray := ParseTags(tags);
        var draft := Rows.MemoryDraft(vaultId, title, ComposeStory(story, kind, audioUrl, photoUrl),
                                      KindName(kind), userId, tagsArray, unlockDate);
        assert draft == DraftFor(f, vaultId, userId, url);
        var tail: seq<Call>;
        if created {
          tail := [ShowToast(CreatedToast), MemoryCreated];
        } else {
          tail := [ShowToast(FailedToast)];
        }
        calls := calls + [CreateMemory(draft)] + tail;
        Seqs.AppendThree(old(calls), ups, [CreateMemory(draft)], tail);
      }
    }

    /** The two `uploadFile` steps; at most one of them applies. `failed` is set when the upload rejects;
        otherwise the URL goes to the field of the memory's type. */
    method UploadAttachment(now: nat, upload: Result<string>) returns (audioUrl: string, photoUrl: string, failed: bool)
      modifies this`calls
      ensures var up := PlannedUpload(Current(), vaultId, now);
              var url := if up.Some? && upload.Success? then upload.value else "";
              && calls == old(calls) + (if up.Some? then [up.value] else [])
              && failed == (up.Some? && upload.Failure?)
              && audioUrl == (if kind == AudioKind then url else "")
              && photoUrl == (if kind == PhotoKind then url else "")
    {
      audioUrl, photoUrl, failed := "", "", false;
      if kind == AudioKind && audioFile.Some? {
        calls := calls + [Upload("audio", UploadPath(vaultId, now, audioFile.value), audioFile.value)];
        if upload.Failure? { failed := true; } else { audioUrl := upload.value; }
      }
      if !failed && kind == PhotoKind && photoFile.Some? {
        calls := calls + [Upload("photos", UploadPath(vaultId, now, photoFile.value), photoFile.value)];
        if upload.Failure? { failed := true; } else { photoUrl := upload.value; }
      }
    }
  }

  /** Without a signed-in user nothing is uploaded or created, only the authentication toast is shown;
      this check comes first, so it wins even over blank fields. */
  lemma {:induction false} SignedOutSubmitOnlyWarns(f: FormFields, vaultId: string, now: nat, upload: Result<string>, created: bool)
    ensures SubmitCalls(f, vaultId, None, now, upload, created) == [ShowToast(AuthErrorToast)]
  {
  }

  /** A signed-in user with a blank title or story gets the required-fields toast and no request. */
  lemma {:induction false} BlankFieldsOnlyWarn(f: FormFields, vaultId: string, user: Auth.User, now: nat, upload: Result<string>, created: bool)
    requires IsBlank(f.title) || IsBlank(f.story)
    ensures SubmitCalls(f, vaultId, Some(user), now, upload, created) == [ShowToast(MissingFieldsToast)]
  {
  }

  /** Where the requests of a submission sit among its calls: an upload only first and only the planned
      one, and the create right after the upload, or first when nothing is uploaded. */
  lemma {:induction false} SubmitLayout(f: FormFields, vaultId: string, user: Option<Auth.User>, now: nat,
                                        upload: Result<string>, created: bool)
    ensures var c := SubmitCalls(f, vaultId, user, now, upload, created);
            var up := PlannedUpload(f, vaultId, now);
            && (forall i :: 0 <= i < |c| && c[i].Upload? ==> i == 0 && up == Some(c[i]))
            && (forall i :: 0 <= i < |c| && c[i].CreateMemory? ==>
                  && PassesGuards(f, user) && (up.None? || upload.Success?)
                  && i == (if up.Some? then 1 else 0)
                  && c[i].draft == DraftFor(f, vaultId, user.value.id, if up.Some? then upload.value else ""))
  {
    var c := SubmitCalls(f, vaultId, user, now, upload, created);
    var up := PlannedUpload(f, vaultId, now);
    if PassesGuards(f, user) && !(up.Some? && upload.Failure?) {
      var ups := if up.Some? then [up.value] else [];
      var d := DraftFor(f, vaultId, user.value.id, if up.Some? then upload.value else "");
      var tail := if created then [ShowToast(CreatedToast), MemoryCreated] else [ShowToast(FailedToast)];
      assert c == ups + [CreateMemory(d)] + tail;
    }
  }

  /** Uploads follow the type: at most one, to 'audio' only for an audio memory with an audio file,
      to 'photos' only for a photo memory with a photo, and always before the create. */
  lemma {:induction false} UploadsFollowType(f: FormFields, vaultId: string, user: Option<Auth.User>, now: nat,
                          upload: Result<string>, created: bool)
    ensures var c := SubmitCalls(f, vaultId, user, now, upload, created);
            && (forall i :: 0 <= i < |c| && c[i].Upload? ==>
                  || (c[i].bucket == "audio" && f.kind == AudioKind && f.audioFile == Some(c[i].file))
                  || (c[i].bucket == "photos" && f.kind == PhotoKind && f.photoFile == Some(c[i].file)))
            && (forall i, j :: 0 <= i < |c| && 0 <= j < |c| && c[i].Upload? && c[j].Upload? ==> i == j)
            && (forall i, j :: 0 <= i < |c| && 0 <= j < |c| && c[i].Upload? && c[j].CreateMemory? ==> i < j)
  {
    SubmitLayout(f, vaultId, user, now, upload, created);
  }

  /** The record that is created belongs to the form's vault and the signed-in user, carries the parsed
      tags and the entered title, and has no unlock date when none was picked. */
  lemma {:induction false} CreatedRecordShape(f: FormFields, vaultId: string, user: Option<Auth.User>, now: nat,
                           upload: Result<string>, created: bool)
    ensures var c := SubmitCalls(f, vaultId, user, now, upload, created);
            forall i :: 0 <= i < |c| && c[i].CreateMemory? ==>
              && user.Some?
              && c[i].draft.vaultId == vaultId && c[i].draft.createdBy == user.value.id
              && c[i].draft.title == f.title && c[i].draft.tags == ParseTags(f.tags)
              && c[i].draft.memoryType == KindName(f.kind)
              && c[i].draft.unlockDate == f.unlockDate
  {
    SubmitLayout(f, vaultId, user, now, upload, created);
  }

  /** `onMemoryCreated` runs exactly when a submission passes the guards, its upload (if any) succeeds
      and the create succeeds; it is then the last call, right after the success toast, and a submission
      like that creates exactly one memory. */
  lemma {:induction false} CallbackOnlyAfterCreate(f: FormFields, vaultId: string, user: Option<Auth.User>, now: nat,
                                upload: Result<string>, created: bool)
    ensures var c := SubmitCalls(f, vaultId, user, now, upload, created);
            && (MemoryCreated in c <==>
                  PassesGuards(f, user) && (PlannedUpload(f, vaultId, now).None? || upload.Success?) && created)
            && (MemoryCreated in c ==>
                  |c| >= 3 && c[|c| - 1] == MemoryCreated && c[|c| - 2] == ShowToast(CreatedToast)
                  && c[|c| - 3].CreateMemory?
                  && forall i :: 0 <= i < |c| - 3 ==> !c[i].CreateMemory?)
  {
    var c := SubmitCalls(f, vaultId, user, now, upload, created);
    var up := PlannedUpload(f, vaultId, now);
    if PassesGuards(f, user) && !(up.Some? && upload.Failure?) {
      var ups := if up.Some? then [up.value] else [];
      var d := DraftFor(f, vaultId, user.value.id, if up.Some? then upload.value else "");
      var tail := if created then [ShowToast(CreatedToast), MemoryCreated] else [ShowToast(FailedToast)];
      assert c == ups + [CreateMemory(d)] + tail;
      assert forall i :: 0 <= i < |ups| ==> ups[i].Upload?;
      if created {
        assert c[|c| - 3] == CreateMemory(d);
        assert forall i :: 0 <= i < |c| - 3 ==> c[i] == ups[i];
      } else {
        assert c == ups + [CreateMemory(d), ShowToast(FailedToast)];
      }
    }
  }
}
