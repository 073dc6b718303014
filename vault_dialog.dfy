/**
 * The dialog that creates a vault: name check first, then sign-in check,
 * then `createVault(name, user.id, ['sepia'])`; on success a notification,
 * the name cleared, the dialog closed and the parent told; on failure an
 * error notification and nothing else. `isLoading` is cleared either way.
 */
module VaultDialog {
  import opened Wrappers
  import opened Text
  import opened Ui
  import Auth
  import Schema

  datatype Call =
    | CreateVault(name: string, creatorId: string, theme: seq<string>)
    | ShowToast(toast: Toast)
    | OpenChange(open: bool)
    | VaultCreated

  const NameRequiredToast: Toast := Toast("Vault name required", "Please enter a name for your vault")
  const AuthErrorToast: Toast := Toast("Authentication error", "You must be signed in to create a vault")
  const FailedToast: Toast := Toast("Vault creation failed", "An error occurred while creating your vault")

  /** The success notification names the vault in quotes. */
  function CreatedToast(name: string): Toast {
    Toast("Vault created", "\"" + name + "\" has been created successfully")
  }

  /** The theme every new vault gets. */
  const DefaultTheme: seq<string> := ["sepia"]

  /** The calls one `handleCreateVault` makes; `created` says whether `createVault` resolved. */
  function CreateCalls(name: string, user: Option<Auth.User>, created: bool): seq<Call> {
    if IsBlank(name) then [ShowToast(NameRequiredToast)]
    else if user.None? then [ShowToast(AuthErrorToast)]
    else
      [CreateVault(name, user.value.id, DefaultTheme)]
        + (if created then [ShowToast(CreatedToast(name)), OpenChange(false), VaultCreated]
           else [ShowToast(FailedToast)])
  }

  /** The entered name afterwards: cleared only by a successful create. */
  function NameAfter(name: string, user: Option<Auth.User>, created: bool): string {
    if !IsBlank(name) && user.Some? && created then "" else name
  }

  class CreateVaultDialog {
    var vaultName: string
    var isLoading: bool
    var calls: seq<Call>

    constructor ()
      ensures vaultName == "" && !isLoading && calls == []
    {
      vaultName, isLoading, calls := "", false, [];
    }

    method HandleCreateVault(user: Option<Auth.User>, created: bool)
      modifies this
      ensures calls == old(calls) + CreateCalls(old(vaultName), user, created)
      ensures vaultName == NameAfter(old(vaultName), user, created)
      ensures isLoading == if !IsBlank(old(vaultName)) && user.Some? then false else old(isLoading)
    {
      if Trim(vaultName) == [] {
        calls := calls + [ShowToast(NameRequiredToast)];
        return;
      }
      if user.None? {
        calls := calls + [ShowToast(AuthErrorToast)];
        return;
      }
      isLoading := true;
      ghost var name := vaultName;
      calls := calls + [CreateVault(vaultName, user.value.id, ["sepia"])];
      if created {
        calls := calls + [ShowToast(CreatedToast(vaultName))];
        vaultName := "";
        calls := calls + [OpenChange(false)];
        calls := calls + [VaultCreated];
        assert calls == old(calls) + ([CreateVault(name, user.value.id, DefaultTheme)]
                                      + [ShowToast(CreatedToast(name)), OpenChange(false), VaultCreated]);
      } else {
        calls := calls + [ShowToast(FailedToast)];
      }
      isLoading := false;
    }
  }

  /** A blank name stops the dialog before the sign-in check: only the name toast, even when signed out. */
  lemma BlankNameCheckedFirst(name: string, user: Option<Auth.User>, created: bool)
    requires IsBlank(name)
    ensures CreateCalls(name, user, created) == [ShowToast(NameRequiredToast)]
    ensures NameAfter(name, user, created) == name
  {
  }

  /** A real name without a signed-in user gives the authentication toast and no call. */
  lemma SignedOutOnlyWarns(name: string, created: bool)
    requires !IsBlank(name)
    ensures CreateCalls(name, None, created) == [ShowToast(AuthErrorToast)]
  {
  }

  /** The create receives the name as typed, untrimmed, with the user's id and the sepia theme; it is
      the first call of every attempt that passes both checks, and there is only one. */
  lemma CreateReceivesUntrimmedName(name: string, user: Auth.User, created: bool)
    requires !IsBlank(name)
    ensures var c := CreateCalls(name, Some(user), created);
            c[0] == CreateVault(name, user.id, ["sepia"])
            && forall i :: 0 < i < |c| ==> !c[i].CreateVault?
  {
  }

  /** The theme the dialog sends always passes `vaultSchema`, so whether the requested vault is a valid
      one turns only on the name's length, which the dialog itself never checks. */
  lemma DialogVaultAgainstSchema(name: string, user: Auth.User, created: bool, v: Schema.Vault)
    requires !IsBlank(name) && v.name == name && v.theme == DefaultTheme
    ensures CreateCalls(name, Some(user), created)[0] == CreateVault(name, user.id, v.theme)
    ensures Schema.ValidVault(v) <==> |name| >= 3
  {
  }

  /** On success the dialog closes before the parent is told, after the notification; the name is cleared.
      On failure the dialog is not closed, the parent is not told and the name is kept. */
  lemma OutcomeOrder(name: string, user: Auth.User, created: bool)
    requires !IsBlank(name)
    ensures var c := CreateCalls(name, Some(user), created);
            (created ==> c[1..] == [ShowToast(CreatedToast(name)), OpenChange(false), VaultCreated]
                         && NameAfter(name, Some(user), created) == "")
            && (!created ==> c[1..] == [ShowToast(FailedToast)]
                             && OpenChange(false) !in c && VaultCreated !in c
                             && NameAfter(name, Some(user), created) == name)
  {
  }
}
