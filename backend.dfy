/**
 * The data-access module: the hosted backend seen as four in-memory tables.
 * Queries are filters and sorts over a `Tables` value; the writes are methods
 * of `Store`, whose tables they change. What the backend answers to an
 * insert (the id and timestamp it assigns, or a rejection) is a parameter.
 */
module Backend {
  import opened Wrappers
  import opened Rows
  import Seqs

  datatype Tables = Tables(vaults: seq<Vault>, members: seq<Member>, memories: seq<Memory>, threads: seq<Thread>)

  /** What the backend answers to one insert: the stored row's id and creation time, or an error. */
  datatype Insertion = Inserted(id: string, createdAt: int) | Rejected(message: string)

  /** Some membership row gives `userId` access to `vaultId`. */
  ghost predicate HasMembership(members: seq<Member>, userId: string, vaultId: string) {
    exists i :: 0 <= i < |members| && members[i].userId == userId && members[i].vaultId == vaultId
  }

  /** `select('vault_id').eq('user_id', userId)`, mapped to the vault ids. */
  function MemberVaultIds(members: seq<Member>, userId: string): (ids: seq<string>)
    ensures forall id :: id in ids <==> HasMembership(members, userId, id)
  {
    if members == [] then []
    else
      var rest := MemberVaultIds(members[1..], userId);
      assert forall id :: HasMembership(members[1..], userId, id) ==> HasMembership(members, userId, id) by {
        forall id | HasMembership(members[1..], userId, id) ensures HasMembership(members, userId, id) {
          var i :| 0 <= i < |members[1..]| && members[1..][i].userId == userId && members[1..][i].vaultId == id;
          assert members[i + 1] == members[1..][i];
        }
      }
      assert forall id :: HasMembership(members, userId, id) ==>
                          (members[0].userId == userId && members[0].vaultId == id) || HasMembership(members[1..], userId, id) by {
        forall id | HasMembership(members, userId, id)
          ensures (members[0].userId == userId && members[0].vaultId == id) || HasMembership(members[1..], userId, id)
        {
          var i :| 0 <= i < |members| && members[i].userId == userId && members[i].vaultId == id;
          if i > 0 { assert members[1..][i - 1] == members[i]; }
        }
      }
      if members[0].userId == userId then [members[0].vaultId] + rest else rest
  }

  /** `select('*').in('id', ids)`, in table order. */
  function VaultsWithIds(vaults: seq<Vault>, ids: seq<string>): (r: seq<Vault>)
    ensures forall v :: v in r <==> v in vaults && v.id in ids
  {
    Seqs.Filter(vaults, (v: Vault) => v.id in ids)
  }

  /** `getVaults`: the vaults the user is a member of; none for a user without membership rows. */
  function GetVaults(t: Tables, userId: string): (r: seq<Vault>)
    ensures forall v :: v in r <==> v in t.vaults && HasMembership(t.members, userId, v.id)
    ensures (forall i :: 0 <= i < |t.members| ==> t.members[i].userId != userId) ==> r == []
  {
    var ids := MemberVaultIds(t.members, userId);
    if |ids| == 0 then []
    else
      assert ids[0] in ids;
      VaultsWithIds(t.vaults, ids)
  }

  /** A memory's sort key for `order('created_at', { ascending: false })`. */
  function NewestFirst(m: Memory): int {
    -m.createdAt
  }

  /** `getMemories`: the vault's memories, newest first. */
  function GetMemories(t: Tables, vaultId: string): (r: seq<Memory>)
    ensures forall m :: m in r <==> m in t.memories && m.vaultId == vaultId
    ensures multiset(r) == multiset(Seqs.Filter(t.memories, (m: Memory) => m.vaultId == vaultId))
    ensures forall i, j :: 0 <= i < j < |r| ==> r[i].createdAt >= r[j].createdAt
  {
    var rows := Seqs.Filter(t.memories, (m: Memory) => m.vaultId == vaultId);
    var r := Seqs.SortBy(rows, NewestFirst);
    Seqs.SortFilterMembers(t.memories, (m: Memory) => m.vaultId == vaultId, NewestFirst);
    assert forall i, j :: 0 <= i < j < |r| ==> NewestFirst(r[i]) <= NewestFirst(r[j]);
    r
  }

  /** A thread's sort key for `order('created_at', { ascending: true })`. */
  function OldestFirst(th: Thread): int {
    th.createdAt
  }

  /** `getThreads`: the memory's threads, oldest first. */
  function GetThreads(t: Tables, memoryId: string): (r: seq<Thread>)
    ensures forall th :: th in r <==> th in t.threads && th.memoryId == memoryId
    ensures multiset(r) == multiset(Seqs.Filter(t.threads, (th: Thread) => th.memoryId == memoryId))
    ensures forall i, j :: 0 <= i < j < |r| ==> r[i].createdAt <= r[j].createdAt
  {
    var rows := Seqs.Filter(t.threads, (th: Thread) => th.memoryId == memoryId);
    var r := Seqs.SortBy(rows, OldestFirst);
    Seqs.SortFilterMembers(t.threads, (th: Thread) => th.memoryId == memoryId, OldestFirst);
    assert forall i, j :: 0 <= i < j < |r| ==> OldestFirst(r[i]) <= OldestFirst(r[j]);
    r
  }

  /** The membership rows for one user in one vault. */
  function MembershipRows(members: seq<Member>, vaultId: string, userId: string): seq<Member> {
    Seqs.Filter(members, (m: Member) => m.vaultId == vaultId && m.userId == userId)
  }

  /** `getVaultRole`: the role of the single matching membership row; null when `.single()` fails,
      that is when there is no matching row or more than one. */
  function GetVaultRole(t: Tables, vaultId: string, userId: string): (r: Option<Role>)
    ensures r.Some? <==> |MembershipRows(t.members, vaultId, userId)| == 1
    ensures r.Some? ==> exists i :: 0 <= i < |t.members| && t.members[i].vaultId == vaultId
                               && t.members[i].userId == userId && t.members[i].role == r.value
    ensures (forall i :: 0 <= i < |t.members| ==> t.members[i].vaultId != vaultId || t.members[i].userId != userId)
            ==> r.None?
  {
    var rows := MembershipRows(t.members, vaultId, userId);
    if |rows| == 1 then
      assert rows[0] in rows;
      Some(rows[0].role)
    else
      assert (forall i :: 0 <= i < |t.members| ==> t.members[i].vaultId != vaultId || t.members[i].userId != userId)
             ==> |rows| == 0 by {
        if forall i :: 0 <= i < |t.members| ==> t.members[i].vaultId != vaultId || t.members[i].userId != userId {
          Seqs.FilterNone(t.members, (m: Member) => m.vaultId == vaultId && m.userId == userId);
        }
      }
      None
  }

  /** The tables with one more vault and, when given, one more membership row. */
  function WithVault(t: Tables, v: Vault, owner: Option<Member>): Tables {
    t.(vaults := t.vaults + [v], members := t.members + (if owner.Some? then [owner.value] else []))
  }

  /** The hosted tables, changed in place by the write operations. */
  class Store {
    var vaults: seq<Vault>
    var members: seq<Member>
    var memories: seq<Memory>
    var threads: seq<Thread>

    function Snapshot(): Tables
      reads this
    {
      Tables(vaults, members, memories, threads)
    }

    constructor (t: Tables)
      ensures Snapshot() == t
    {
      vaults, members, memories, threads := t.vaults, t.members, t.memories, t.threads;
    }

    /** `createVault`: insert the vault, then its creator as owner; the two inserts are not one transaction. */
    method CreateVault(name: string, creatorId: string, vaultInsert: Insertion, memberInsert: Insertion,
                       theme: seq<string> := [])
      returns (r: Result<Vault>)
      modifies this
      ensures vaultInsert.Rejected? ==> r == Failure(vaultInsert.message) && Snapshot() == old(Snapshot())
      ensures vaultInsert.Inserted? ==>
                var v := Vault(vaultInsert.id, name, creatorId, theme, vaultInsert.createdAt);
                if memberInsert.Inserted? then
                  r == Success(v) &&
                  Snapshot() == WithVault(old(Snapshot()), v, Some(Member(memberInsert.id, v.id, creatorId, Owner)))
                else
                  // the vault row stays behind without an owner
                  r == Failure(memberInsert.message) && Snapshot() == WithVault(old(Snapshot()), v, None)
    {
      if vaultInsert.Rejected? {
        return Failure(vaultInsert.message);
      }
      var v := Vault(vaultInsert.id, name, creatorId, theme, vaultInsert.createdAt);
      vaults := vaults + [v];
      if memberInsert.Rejected? {
        return Failure(memberInsert.message);
      }
      members := members + [Member(memberInsert.id, v.id, creatorId, Owner)];
      r := Success(v);
    }

    /** `createMemory`: insert the draft into the memories table and return the stored row. */
    method CreateMemory(draft: MemoryDraft, insert: Insertion) returns (r: Result<Memory>)
      modifies this
      ensures insert.Rejected? ==> r == Failure(insert.message) && Snapshot() == old(Snapshot())
      ensures insert.Inserted? ==>
                r == Success(StoredMemory(draft, insert.id, insert.createdAt)) &&
                Snapshot() == old(Snapshot()).(memories := old(memories) + [r.value])
    {
      if insert.Rejected? {
        return Failure(insert.message);
      }
      var row := StoredMemory(draft, insert.id, insert.createdAt);
      memories := memories + [row];
      r := Success(row);
    }

    /** `addThread`: insert the draft into the threads table and return the stored row. */
    method AddThread(draft: ThreadDraft, insert: Insertion) returns (r: Result<Thread>)
      modifies this
      ensures insert.Rejected? ==> r == Failure(insert.message) && Snapshot() == old(Snapshot())
      ensures insert.Inserted? ==>
                r == Success(StoredThread(draft, insert.id, insert.createdAt)) &&
                Snapshot() == old(Snapshot()).(threads := old(threads) + [r.value])
    {
      if insert.Rejected? {
        return Failure(insert.message);
      }
      var row := StoredThread(draft, insert.id, insert.createdAt);
      threads := threads + [row];
      r := Success(row);
    }
  }

  /** No membership row mentions the vault id yet. */
  predicate FreshVaultId(t: Tables, id: string) {
    forall i :: 0 <= i < |t.members| ==> t.members[i].vaultId != id
  }

  /** After both inserts of `createVault` the creator is the vault's only member, as owner,
      and the vault is among the creator's vaults. */
  lemma CreatorOwnsNewVault(t: Tables, v: Vault, memberId: string)
    requires FreshVaultId(t, v.id)
    ensures var t' := WithVault(t, v, Some(Member(memberId, v.id, v.creatorId, Owner)));
            GetVaultRole(t', v.id, v.creatorId) == Some(Owner) && v in GetVaults(t', v.creatorId)
  {
    var m := Member(memberId, v.id, v.creatorId, Owner);
    var t' := WithVault(t, v, Some(m));
    var p := (x: Member) => x.vaultId == v.id && x.userId == v.creatorId;
    Seqs.FilterNone(t.members, p);
    Seqs.FilterAppendOne(t.members, m, p);
    assert MembershipRows(t'.members, v.id, v.creatorId) == [m];
    assert t'.members[|t.members|] == m;
    assert HasMembership(t'.members, v.creatorId, v.id);
  }

  /** When the owner insert fails, the stranded vault has no owner: nobody gets a role for it and it is
      in nobody's vault list. */
  lemma OrphanVaultUnreachable(t: Tables, v: Vault, userId: string)
    requires FreshVaultId(t, v.id)
    ensures var t' := WithVault(t, v, None);
            v in t'.vaults && GetVaultRole(t', v.id, userId).None? && v !in GetVaults(t', userId)
  {
    var t' := WithVault(t, v, None);
    assert t'.members == t.members;
    assert !HasMembership(t'.members, userId, v.id);
  }

  /** A stored memory is listed by `getMemories` for its vault, and the list keeps every other memory. */
  lemma CreatedMemoryListed(t: Tables, d: MemoryDraft, id: string, at: int)
    ensures var m := StoredMemory(d, id, at);
            var t' := t.(memories := t.memories + [m]);
            m in GetMemories(t', d.vaultId) &&
            forall x :: x in GetMemories(t, d.vaultId) ==> x in GetMemories(t', d.vaultId)
  {
  }

  /** A stored thread is listed by `getThreads` for its memory. */
  lemma AddedThreadListed(t: Tables, d: ThreadDraft, id: string, at: int)
    ensures var th := StoredThread(d, id, at);
            th in GetThreads(t.(threads := t.threads + [th]), d.memoryId)
  {
  }

  /** With distinct creation times the thread list is fully determined: any ordering of those threads
      that is oldest first is exactly what `getThreads` returns, whatever order they were inserted in. */
  lemma ThreadOrderDetermined(t: Tables, memoryId: string, expected: seq<Thread>)
    requires multiset(expected) == multiset(Seqs.Filter(t.threads, (th: Thread) => th.memoryId == memoryId))
    requires forall i, j :: 0 <= i < j < |expected| ==> expected[i].createdAt < expected[j].createdAt
    ensures GetThreads(t, memoryId) == expected
  {
    var r := GetThreads(t, memoryId);
    assert Seqs.SortedBy(r, OldestFirst);
    assert Seqs.StrictlySortedBy(expected, OldestFirst);
    Seqs.SortedUnique(r, expected, OldestFirst);
  }

  /** The same for memories, newest first. */
  lemma MemoryOrderDetermined(t: Tables, vaultId: string, expected: seq<Memory>)
    requires multiset(expected) == multiset(Seqs.Filter(t.memories, (m: Memory) => m.vaultId == vaultId))
    requires forall i, j :: 0 <= i < j < |expected| ==> expected[i].createdAt > expected[j].createdAt
    ensures GetMemories(t, vaultId) == expected
  {
    var r := GetMemories(t, vaultId);
    assert Seqs.SortedBy(r, NewestFirst);
    assert Seqs.StrictlySortedBy(expected, NewestFirst);
    Seqs.SortedUnique(r, expected, NewestFirst);
  }
}
