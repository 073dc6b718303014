/**
 * The vault page: it loads the vault's memories and, when someone is signed
 * in, their role in the vault; the role decides whether memories can be
 * added. The page's state is `ViewState`; each handler is a step on it and
 * the class applies the steps. The backend's answers come from a `Tables`
 * value, and whether `getMemories` succeeds is a parameter.
 */
module VaultView {
  import opened Wrappers
  import opened Text
  import opened Ui
  import opened Rows
  import Backend
  import Auth

  datatype Call =
    | FetchMemories(vaultId: string)
    | FetchRole(vaultId: string, userId: string)
    | ShowToast(toast: Toast)
    | Navigate(route: string)

  const LoadFailedToast: Toast := Toast("Failed to load memories", "An error occurred while loading the vault memories")

  /** `userRole === 'owner' || userRole === 'editor'`. */
  predicate CanCreateMemory(role: Option<Role>) {
    role == Some(Owner) || role == Some(Editor)
  }

  /** The noun of the count label. */
  function MemoryNoun(n: nat): string {
    if n == 1 then "memory" else "memories"
  }

  /** `{memories.length} {memory|memories} in this vault`. */
  function CountLabel(n: nat): string {
    NatToDecimal(n) + " " + MemoryNoun(n) + " in this vault"
  }

  datatype ViewState = ViewState(
    memories: seq<Memory>, loading: bool, showCreateForm: bool, userRole: Option<Role>, calls: seq<Call>)

  /** The route parameter read as a condition: present and non-empty. */
  predicate Truthy(vaultId: Option<string>) {
    vaultId.Some? && vaultId.value != ""
  }

  /** `fetchMemories`; `memoriesOk` says whether `getMemories` resolved. `getVaultRole` never throws. */
  function FetchStep(s: ViewState, vaultId: Option<string>, user: Option<Auth.User>, db: Backend.Tables,
                     memoriesOk: bool): ViewState
  {
    if !Truthy(vaultId) then s
    else
      var id := vaultId.value;
      if !memoriesOk then s.(loading := false, calls := s.calls + [FetchMemories(id), ShowToast(LoadFailedToast)])
      else
        var listed := s.(memories := Backend.GetMemories(db, id), calls := s.calls + [FetchMemories(id)]);
        if user.Some? then
          listed.(userRole := Backend.GetVaultRole(db, id, user.value.id), loading := false,
                  calls := listed.calls + [FetchRole(id, user.value.id)])
        else listed.(loading := false)
  }

  /** 'Add Memory' sits in the header, which is shown while the form is hidden. */
  predicate ShowsAddMemory(s: ViewState) {
    !s.showCreateForm && CanCreateMemory(s.userRole)
  }

  /** 'Create Your First Memory' sits in the empty-vault notice, shown once loading ends with no memories. */
  predicate ShowsCreateFirst(s: ViewState) {
    !s.showCreateForm && !s.loading && |s.memories| == 0 && CanCreateMemory(s.userRole)
  }

  class VaultPage {
    const vaultId: Option<string>
    var memories: seq<Memory>
    var loading: bool
    var showCreateForm: bool
    var userRole: Option<Role>
    var calls: seq<Call>

    function State(): ViewState
      reads this
    {
      ViewState(memories, loading, showCreateForm, userRole, calls)
    }

    constructor (vaultId: Option<string>)
      ensures this.vaultId == vaultId
      ensures State() == ViewState([], true, false, None, [])
    {
      this.vaultId := vaultId;
      memories, loading, showCreateForm, userRole, calls := [], true, false, None, [];
    }

    method FetchMemoriesNow(user: Option<Auth.User>, db: Backend.Tables, memoriesOk: bool)
      modifies this
      ensures State() == FetchStep(old(State()), vaultId, user, db, memoriesOk)
    {
      if vaultId.None? || vaultId.value == "" {
        return;
      }
      var id := vaultId.value;
      loading := true;
      calls := calls + [FetchMemories(id)];
      if !memoriesOk {
        calls := calls + [ShowToast(LoadFailedToast)];
      } else {
        memories := Backend.GetMemories(db, id);
        if user.Some? {
          calls := calls + [FetchRole(id, user.value.id)];
          userRole := Backend.GetVaultRole(db, id, user.value.id);
        }
      }
      loading := false;
    }

    /** 'Add Memory' or 'Create Your First Memory' clicked. */
    method OpenForm()
      modifies this
      ensures State() == old(State()).(showCreateForm := true)
    {
      showCreateForm := true;
    }

    /** The form's `onMemoryCreated`: hide the form, then fetch again. */
    method OnMemoryCreated(user: Option<Auth.User>, db: Backend.Tables, memoriesOk: bool)
      modifies this
      ensures State() == FetchStep(old(State()).(showCreateForm := false), vaultId, user, db, memoriesOk)
    {
      showCreateForm := false;
      FetchMemoriesNow(user, db, memoriesOk);
    }

    /** The form's `onCancel`: hide the form. */
    method OnCancel()
      modifies this
      ensures State() == old(State()).(showCreateForm := false)
    {
      showCreateForm := false;
    }

    /** `handleMemoryClick`. */
    method HandleMemoryClick(memoryId: string)
      modifies this
      ensures State() == old(State()).(calls := old(calls) + [Navigate("/memory/" + memoryId)])
    {
      calls := calls + [Navigate("/memory/" + memoryId)];
    }
  }

  /** Owners and editors may add memories; viewers and those without a role may not. */
  lemma CreatePermission(role: Option<Role>)
    ensures CanCreateMemory(role) <==> role.Some? && role.value != Viewer
  {
  }

  /** Both create controls appear only for a role that may create. */
  lemma CreateControlsNeedPermission(s: ViewState)
    ensures ShowsAddMemory(s) || ShowsCreateFirst(s) ==> CanCreateMemory(s.userRole)
    ensures !s.showCreateForm && CanCreateMemory(s.userRole) ==> ShowsAddMemory(s)
  {
  }

  /** The label says 'memory' exactly for one memory. */
  lemma NounAgreesWithCount(n: nat)
    ensures MemoryNoun(n) == "memory" <==> n == 1
    ensures n != 1 ==> MemoryNoun(n) == "memories"
  {
  }

  /** Without a vault id nothing is fetched and nothing changes. */
  lemma NoVaultIdNoFetch(s: ViewState, user: Option<Auth.User>, db: Backend.Tables, memoriesOk: bool)
    ensures FetchStep(s, None, user, db, memoriesOk) == s
    ensures FetchStep(s, Some(""), user, db, memoriesOk) == s
  {
  }

  /** With a vault id the fetch always ends with loading off, and asks for a role only when signed in. */
  lemma FetchEndsLoading(s: ViewState, vaultId: string, user: Option<Auth.User>, db: Backend.Tables, memoriesOk: bool)
    requires vaultId != ""
    ensures var r := FetchStep(s, Some(vaultId), user, db, memoriesOk);
            !r.loading
            && (user.None? ==> r.userRole == s.userRole
                               && forall i :: |s.calls| <= i < |r.calls| ==> !r.calls[i].FetchRole?)
            && (memoriesOk && user.Some? ==> r.calls[|r.calls| - 1] == FetchRole(vaultId, user.value.id))
  {
  }

  /** A successful fetch lists exactly this vault's memories, newest first. A failed one keeps the
      earlier list and role and shows the failure toast. */
  lemma FetchedMemoriesBelongToVault(s: ViewState, vaultId: string, user: Option<Auth.User>, db: Backend.Tables,
                                     memoriesOk: bool)
    requires vaultId != ""
    ensures var r := FetchStep(s, Some(vaultId), user, db, memoriesOk);
            (memoriesOk ==>
               (forall m :: m in r.memories <==> m in db.memories && m.vaultId == vaultId)
               && forall i, j :: 0 <= i < j < |r.memories| ==> r.memories[i].createdAt >= r.memories[j].createdAt)
            && (!memoriesOk ==> r.memories == s.memories && r.userRole == s.userRole
                                && r.calls == s.calls + [FetchMemories(vaultId), ShowToast(LoadFailedToast)])
  {
  }

  /** As written, a fetch while signed out leaves the role from an earlier signed-in fetch in place, so
      the create controls can outlive the sign-in they were granted to. */
  lemma SignedOutKeepsEarlierRole(s: ViewState, vaultId: string, db: Backend.Tables)
    requires vaultId != "" && s.userRole == Some(Owner) && !s.showCreateForm
    ensures ShowsAddMemory(FetchStep(s, Some(vaultId), None, db, true))
  {
  }

  /** The creator of a vault whose two inserts both succeeded gets the create controls there. */
  lemma CreatorMayAddMemories(t: Backend.Tables, v: Vault, memberId: string, s: ViewState, user: Auth.User)
    requires Backend.FreshVaultId(t, v.id) && v.id != "" && user.id == v.creatorId && !s.showCreateForm
    ensures var db := Backend.WithVault(t, v, Some(Member(memberId, v.id, v.creatorId, Owner)));
            ShowsAddMemory(FetchStep(s, Some(v.id), Some(user), db, true))
  {
    Backend.CreatorOwnsNewVault(t, v, memberId);
  }
}
