/**
 * The grid of vault cards: the background each vault's themes select, and the
 * cards themselves (one to create a vault, one per vault).
 */
module VaultGrid {
  import Rows
  import Schema

  datatype Background = Sepia | Sage | Parchment | Cream

  /** `getVaultBackground`: sepia wins over sage, sage over parchment; cream when none is present. */
  function VaultBackground(themes: seq<string>): (b: Background)
    ensures b == Sepia <==> "sepia" in themes
    ensures b == Sage <==> "sepia" !in themes && "sage" in themes
    ensures b == Parchment <==> "sepia" !in themes && "sage" !in themes && "parchment" in themes
    ensures b == Cream <==> "sepia" !in themes && "sage" !in themes && "parchment" !in themes
  {
    if "sepia" in themes then Sepia
    else if "sage" in themes then Sage
    else if "parchment" in themes then Parchment
    else Cream
  }

  /** The background depends only on which themes are present: not on their order or repetitions. */
  lemma BackgroundDependsOnSetOnly(a: seq<string>, b: seq<string>)
    requires forall t :: t in a <==> t in b
    ensures VaultBackground(a) == VaultBackground(b)
  {
  }

  /** Of the three themes the grid looks for, `vaultSchema` allows only sepia: a vault the schema accepts
      is drawn sepia or cream, never sage or parchment. */
  lemma SchemaVaultsSepiaOrCream(v: Schema.Vault)
    requires Schema.ValidVault(v)
    ensures VaultBackground(v.theme) == Sepia || VaultBackground(v.theme) == Cream
    ensures VaultBackground(v.theme) == Sepia <==> "sepia" in v.theme
  {
    if "sage" in v.theme {
      Schema.UnknownThemeRejected(v, "sage");
    }
    if "parchment" in v.theme {
      Schema.UnknownThemeRejected(v, "parchment");
    }
  }

  datatype Card =
    | CreateCard
    | VaultCard(id: string, name: string, background: Background, route: string)

  /** The route a vault card navigates to. */
  function VaultRoute(id: string): string {
    "/vault/" + id
  }

  /** The cards of one vault each, in the order of `vaults`. */
  function VaultCards(vaults: seq<Rows.Vault>): (r: seq<Card>)
    ensures |r| == |vaults|
    ensures forall i :: 0 <= i < |vaults| ==>
              r[i] == VaultCard(vaults[i].id, vaults[i].name, VaultBackground(vaults[i].theme), VaultRoute(vaults[i].id))
  {
    if vaults == [] then []
    else
      var v := vaults[0];
      [VaultCard(v.id, v.name, VaultBackground(v.theme), VaultRoute(v.id))] + VaultCards(vaults[1..])
  }

  /** The grid: the create card first, then one card per vault. */
  function GridCards(vaults: seq<Rows.Vault>): seq<Card> {
    [CreateCard] + VaultCards(vaults)
  }

  /** One create card and exactly one card per vault, each leading to its own vault. */
  lemma OneCardPerVault(vaults: seq<Rows.Vault>)
    ensures var g := GridCards(vaults);
            |g| == |vaults| + 1 && g[0] == CreateCard
            && (forall i :: 1 <= i < |g| ==> g[i].VaultCard?)
            && (forall i :: 0 <= i < |vaults| ==>
                  (g[i + 1].id == vaults[i].id
                   && g[i + 1].route[|"/vault/"|..] == vaults[i].id && g[i + 1].route[..|"/vault/"|] == "/vault/"))
  {
    var g := GridCards(vaults);
    forall i | 0 <= i < |vaults|
      ensures g[i + 1].id == vaults[i].id
      ensures g[i + 1].route[|"/vault/"|..] == vaults[i].id && g[i + 1].route[..|"/vault/"|] == "/vault/"
    {
      assert g[i + 1] == VaultCards(vaults)[i];
    }
  }
}
