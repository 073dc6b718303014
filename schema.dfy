/**
 * The record schemas of the client library: what each zod schema accepts.
 * The library's own format checks (e-mail address, UUID, ISO date-time) are
 * regular expressions outside this model; they are the `Formats` value every
 * validator takes. A string's length is its length as a sequence.
 */
module Schema {
  import opened Wrappers
  import Rows

  /** The format checks zod performs with its own patterns. */
  datatype Formats = Formats(isEmail: string -> bool, isUuid: string -> bool, isDatetime: string -> bool)

  datatype User = User(
    id: string, email: string, name: string, avatarUrl: Option<string>,
    createdAt: string, updatedAt: string)

  /** `userSchema`: an e-mail address and a name of at least two characters. */
  predicate ValidUser(f: Formats, u: User) {
    f.isEmail(u.email) && |u.name| >= 2
  }

  /** The four themes `vaultSchema` allows. */
  predicate IsVaultTheme(t: string) {
    t == "sepia" || t == "midnight" || t == "pearl" || t == "dusk"
  }

  datatype Vault = Vault(
    id: string, name: string, description: Option<string>, creatorId: string,
    theme: seq<string>, createdAt: string, updatedAt: string)

  /** `vaultSchema`: a name of at least three characters and only known themes. */
  predicate ValidVault(v: Vault) {
    |v.name| >= 3 && forall i :: 0 <= i < |v.theme| ==> IsVaultTheme(v.theme[i])
  }

  /** A name the schemas' minimum lengths reject makes the whole record invalid. */
  lemma NameBoundsReject(f: Formats, u: User, v: Vault)
    ensures |u.name| < 2 ==> !ValidUser(f, u)
    ensures |v.name| < 3 ==> !ValidVault(v)
  {
  }

  /** One theme outside the four known ones makes a vault invalid, whatever its other themes. */
  lemma {:induction false} UnknownThemeRejected(v: Vault, t: string)
    requires t in v.theme && !IsVaultTheme(t)
    ensures !ValidVault(v)
  {
    var i :| 0 <= i < |v.theme| && v.theme[i] == t;
    assert !IsVaultTheme(v.theme[i]);
  }

  /** The memory types `memorySchema` allows. */
  predicate IsSchemaMemoryType(t: string) {
    t == "text" || t == "photo" || t == "voice"
  }

  datatype Memory = Memory(
    id: string, vaultId: string, title: string, story: string, memoryType: string,
    mediaUrl: Option<string>, createdBy: string, tags: seq<string>,
    unlockDate: Option<string>, createdAt: string, updatedAt: string)

  /** `memorySchema`: a title of at least three characters and a known type; any story, the empty one included. */
  predicate ValidMemory(m: Memory) {
    |m.title| >= 3 && IsSchemaMemoryType(m.memoryType)
  }

  /** The story is not constrained: a memory with a valid title and type stays valid with an empty story. */
  lemma EmptyStoryAccepted(m: Memory)
    requires ValidMemory(m)
    ensures ValidMemory(m.(story := ""))
  {
  }

  /** The thread content bounds: `z.string().min(1).max(1000)`. */
  predicate ValidContent(c: string) {
    1 <= |c| <= 1000
  }

  /** A thread object as it reaches `threadSchema`, `is_edited` possibly absent. */
  datatype ThreadInput = ThreadInput(
    id: string, memoryId: string, createdBy: string, content: string, createdAt: string,
    updatedAt: Option<string>, parentId: Option<string>, isEdited: Option<bool>)

  /** A thread as `threadSchema` outputs it. */
  datatype Thread = Thread(
    id: string, memoryId: string, createdBy: string, content: string, createdAt: string,
    updatedAt: Option<string>, parentId: Option<string>, isEdited: bool)

  predicate OptionalUuid(f: Formats, s: Option<string>) {
    s.None? || f.isUuid(s.value)
  }

  predicate OptionalDatetime(f: Formats, s: Option<string>) {
    s.None? || f.isDatetime(s.value)
  }

  /** Every constraint `threadSchema` puts on a thread. */
  predicate ValidThreadInput(f: Formats, t: ThreadInput) {
    && f.isUuid(t.id) && f.isUuid(t.memoryId) && f.isUuid(t.createdBy)
    && ValidContent(t.content)
    && f.isDatetime(t.createdAt) && OptionalDatetime(f, t.updatedAt)
    && OptionalUuid(f, t.parentId)
  }

  /** `threadSchema.safeParse`: the parsed thread, with `is_edited` defaulted to false, or nothing. */
  function ParseThread(f: Formats, t: ThreadInput): (r: Option<Thread>)
    ensures r.Some? <==> ValidThreadInput(f, t)
    ensures r.Some? ==> r.value.isEdited == t.isEdited.GetOr(false)
    ensures r.Some? ==> r.value.id == t.id && r.value.memoryId == t.memoryId
                        && r.value.createdBy == t.createdBy && r.value.content == t.content
                        && r.value.createdAt == t.createdAt && r.value.updatedAt == t.updatedAt
                        && r.value.parentId == t.parentId
  {
    if ValidThreadInput(f, t) then
      Some(Thread(t.id, t.memoryId, t.createdBy, t.content, t.createdAt, t.updatedAt, t.parentId,
                  t.isEdited.GetOr(false)))
    else None
  }

  /** `commentSchema`: a thread with an extra `thread_id`. */
  datatype CommentInput = CommentInput(thread: ThreadInput, threadId: string)

  predicate ValidComment(f: Formats, c: CommentInput) {
    ValidThreadInput(f, c.thread) && f.isUuid(c.threadId)
  }

  /** A comment is accepted exactly when its thread part parses and its `thread_id` is a UUID. */
  lemma CommentExtendsThread(f: Formats, c: CommentInput)
    ensures ValidComment(f, c) <==> ParseThread(f, c.thread).Some? && f.isUuid(c.threadId)
  {
  }

  /** `createThreadSchema`: `threadSchema` picked down to `memory_id`, `content` and `parent_id`. */
  datatype CreateThreadInput = CreateThreadInput(memoryId: string, content: string, parentId: Option<string>)

  predicate ValidCreateThread(f: Formats, c: CreateThreadInput) {
    f.isUuid(c.memoryId) && ValidContent(c.content) && OptionalUuid(f, c.parentId)
  }

  /** The three picked fields of a thread object. */
  function PickCreate(t: ThreadInput): CreateThreadInput {
    CreateThreadInput(t.memoryId, t.content, t.parentId)
  }

  /** Picking keeps the constraints of the picked fields and only those: a create input is valid iff
      some, and then every, completion of it with valid other fields is a valid thread. */
  lemma CreateThreadIsPick(f: Formats, t: ThreadInput)
    requires f.isUuid(t.id) && f.isUuid(t.createdBy) && f.isDatetime(t.createdAt)
    requires OptionalDatetime(f, t.updatedAt)
    ensures ValidCreateThread(f, PickCreate(t)) <==> ParseThread(f, t).Some?
  {
  }

  /** `updateThreadSchema`: only `content`. */
  predicate ValidUpdateThread(content: string) {
    ValidContent(content)
  }

  /** An update is accepted iff the new content is 1 to 1000 characters, the bound a full thread has. */
  lemma UpdateThreadChecksOnlyContent(f: Formats, t: ThreadInput, content: string)
    requires ParseThread(f, t).Some?
    ensures ValidUpdateThread(content) <==> ParseThread(f, t.(content := content)).Some?
  {
  }

  /** `memberSchema`'s role enum, read into a role. */
  function ParseRole(s: string): (r: Option<Rows.Role>)
    ensures r.Some? ==> Rows.RoleName(r.value) == s
  {
    if s == "owner" then Some(Rows.Owner)
    else if s == "editor" then Some(Rows.Editor)
    else if s == "viewer" then Some(Rows.Viewer)
    else None
  }

  datatype Member = Member(id: string, vaultId: string, userId: string, role: string, createdAt: string, updatedAt: string)

  /** `memberSchema`: the role is one of owner, editor, viewer. */
  predicate ValidMember(m: Member) {
    ParseRole(m.role).Some?
  }

  /** Every role's stored name is accepted and reads back as that role. */
  lemma RoleRoundTrip(r: Rows.Role)
    ensures ParseRole(Rows.RoleName(r)) == Some(r)
  {
  }

  /** A member is valid exactly for the three role names. */
  lemma MemberRoles(m: Member)
    ensures ValidMember(m) <==> m.role in {"owner", "editor", "viewer"}
  {
  }

  /** The two enums of memory types disagree: `memorySchema` rejects the 'audio' type the memory form
      stores and accepts a 'voice' type the memory table's declared union lacks. */
  lemma MemoryTypeEnumsDiffer(m: Memory)
    requires |m.title| >= 3
    ensures m.memoryType == "audio" ==> !ValidMemory(m)
    ensures m.memoryType == "voice" ==> ValidMemory(m)
  {
  }
}
