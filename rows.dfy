/**
 * Row shapes of the hosted tables as the data-access module and the cards see
 * them (`Database['public']['Tables'][...]['Row']`). Timestamps are integers;
 * a memory's `type` stays a string, because what the backend returns is not
 * checked against the declared union.
 */
module Rows {
  import opened Wrappers

  /** A member's role in a vault. */
  datatype Role = Owner | Editor | Viewer

  /** The string the `members.role` column stores for a role. */
  function RoleName(r: Role): string {
    match r
    case Owner => "owner"
    case Editor => "editor"
    case Viewer => "viewer"
  }

  datatype Vault = Vault(id: string, name: string, creatorId: string, theme: seq<string>, createdAt: int)

  datatype Member = Member(id: string, vaultId: string, userId: string, role: Role)

  datatype Memory = Memory(
    id: string, vaultId: string, title: string, story: string, memoryType: string,
    createdBy: string, tags: seq<string>, unlockDate: Option<int>, createdAt: int)

  /** What `createMemory` sends: a memory row without `id` and `created_at`. */
  datatype MemoryDraft = MemoryDraft(
    vaultId: string, title: string, story: string, memoryType: string,
    createdBy: string, tags: seq<string>, unlockDate: Option<int>)

  datatype Thread = Thread(
    id: string, memoryId: string, contributorId: string, voiceNote: Option<string>,
    photo: Option<string>, textNote: Option<string>, createdAt: int)

  /** What `addThread` sends: a thread row without `id` and `created_at`. */
  datatype ThreadDraft = ThreadDraft(
    memoryId: string, contributorId: string, voiceNote: Option<string>,
    photo: Option<string>, textNote: Option<string>)

  /** The row the backend stores for a memory draft, with the id and timestamp it assigns. */
  function StoredMemory(d: MemoryDraft, id: string, createdAt: int): Memory {
    Memory(id, d.vaultId, d.title, d.story, d.memoryType, d.createdBy, d.tags, d.unlockDate, createdAt)
  }

  /** The row the backend stores for a thread draft, with the id and timestamp it assigns. */
  function StoredThread(d: ThreadDraft, id: string, createdAt: int): Thread {
    Thread(id, d.memoryId, d.contributorId, d.voiceNote, d.photo, d.textNote, createdAt)
  }
}
