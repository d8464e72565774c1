/**
 * The net worth hook (src/hooks/use-net-worth.ts): assets, liabilities and
 * the net worth history of the signed-in user, the loading flag, the three
 * totals, and the list transitions after each backend answer. Each
 * operation receives the backend's answers as parameters.
 */
module NetWorthHook {
  import opened Wrappers
  import opened Types
  import opened Sums
  import opened Lists

  function AssetAmount(a: Asset): real { a.amount }

  function LiabilityAmount(l: Liability): real { l.amount }

  function TotalAssets(assets: seq<Asset>): real
  {
    Sum(assets, AssetAmount)
  }

  function TotalLiabilities(liabilities: seq<Liability>): real
  {
    Sum(liabilities, LiabilityAmount)
  }

  /** The backend's code for a missing table, which the history query tolerates. */
  const MissingTable := "42P01"

  /**
   * What `fetchData` stores from the three answers, or `None` when it
   * throws: an assets or liabilities error throws, and a history error
   * throws unless it is the missing-table code, in which case the history
   * is empty.
   */
  function Loaded(assets: Outcome<seq<Asset>>, liabilities: Outcome<seq<Liability>>, history: Outcome<seq<NetWorthHistory>>):
    (r: Option<(seq<Asset>, seq<Liability>, seq<NetWorthHistory>)>)
    ensures r.Some? <==> assets.Ok? && liabilities.Ok? && (history.Ok? || history.code == MissingTable)
    ensures r.Some? ==> r.value.0 == assets.row && r.value.1 == liabilities.row
    ensures r.Some? ==> r.value.2 == if history.Ok? then history.row else []
  {
    if assets.Err? || liabilities.Err? then None
    else match history
      case Ok(rows) => Some((assets.row, liabilities.row, rows))
      case Err(code) => if code == MissingTable then Some((assets.row, liabilities.row, [])) else None
  }

  /** `a => a.id === id` and `l => l.id === id`. */
  function AssetHasId(id: string): Asset -> bool
  {
    (a: Asset) => a.id == id
  }

  function LiabilityHasId(id: string): Liability -> bool
  {
    (l: Liability) => l.id == id
  }

  class NetWorthStore {
    var assets: seq<Asset>
    var liabilities: seq<Liability>
    var history: seq<NetWorthHistory>
    var loading: bool

    /** The initial state: empty lists, still loading. */
    constructor()
      ensures assets == [] && liabilities == [] && history == [] && loading
    {
      assets := [];
      liabilities := [];
      history := [];
      loading := true;
    }

    /** `netWorth = totalAssets - totalLiabilities`. */
    function NetWorth(): real
      reads this
    {
      TotalAssets(assets) - TotalLiabilities(liabilities)
    }

    /**
     * `fetchData`: without a user nothing happens; otherwise the three
     * lists are replaced together when nothing throws and all stay as they
     * were when something does, and loading ends either way.
     */
    method Fetch(signedIn: bool, assetsAnswer: Outcome<seq<Asset>>, liabilitiesAnswer: Outcome<seq<Liability>>,
                 historyAnswer: Outcome<seq<NetWorthHistory>>)
      modifies this
      ensures !signedIn ==> assets == old(assets) && liabilities == old(liabilities) && history == old(history) && loading == old(loading)
      ensures signedIn ==> !loading
      ensures signedIn && Loaded(assetsAnswer, liabilitiesAnswer, historyAnswer).Some? ==>
        (assets, liabilities, history) == Loaded(assetsAnswer, liabilitiesAnswer, historyAnswer).value
      ensures signedIn && Loaded(assetsAnswer, liabilitiesAnswer, historyAnswer).None? ==>
        assets == old(assets) && liabilities == old(liabilities) && history == old(history)
    {
      if !signedIn {
        return;
      }
      var loaded := Loaded(assetsAnswer, liabilitiesAnswer, historyAnswer);
      if loaded.Some? {
        assets, liabilities, history := loaded.value.0, loaded.value.1, loaded.value.2;
      }
      loading := false;
    }

    /** `addAsset`: a successful insert with a user appends the row; net worth grows by its amount. */
    method AddAsset(signedIn: bool, answer: Outcome<Asset>)
      modifies this
      ensures liabilities == old(liabilities) && history == old(history) && loading == old(loading)
      ensures assets == if signedIn && answer.Ok? then old(assets) + [answer.row] else old(assets)
      ensures signedIn && answer.Ok? ==> NetWorth() == old(NetWorth()) + answer.row.amount
    {
      if !signedIn {
        return;
      }
      match answer
      case Err(_) =>
      case Ok(row) =>
        SumSnoc(assets, row, AssetAmount);
        assets := assets + [row];
    }

    /** `addLiability`: a successful insert with a user appends the row; net worth falls by its amount. */
    method AddLiability(signedIn: bool, answer: Outcome<Liability>)
      modifies this
      ensures assets == old(assets) && history == old(history) && loading == old(loading)
      ensures liabilities == if signedIn && answer.Ok? then old(liabilities) + [answer.row] else old(liabilities)
      ensures signedIn && answer.Ok? ==> NetWorth() == old(NetWorth()) - answer.row.amount
    {
      if !signedIn {
        return;
      }
      match answer
      case Err(_) =>
      case Ok(row) =>
        SumSnoc(liabilities, row, LiabilityAmount);
        liabilities := liabilities + [row];
    }

    /** `updateAsset`: on success the assets with the id become the returned row, in place. */
    method UpdateAsset(id: string, answer: Outcome<Asset>)
      modifies this
      ensures liabilities == old(liabilities) && history == old(history) && loading == old(loading)
      ensures assets == if answer.Ok? then ReplaceWhere(old(assets), AssetHasId(id), answer.row) else old(assets)
    {
      if answer.Ok? {
        assets := ReplaceWhere(assets, AssetHasId(id), answer.row);
      }
    }

    /** `updateLiability`: on success the liabilities with the id become the returned row, in place. */
    method UpdateLiability(id: string, answer: Outcome<Liability>)
      modifies this
      ensures assets == old(assets) && history == old(history) && loading == old(loading)
      ensures liabilities == if answer.Ok? then ReplaceWhere(old(liabilities), LiabilityHasId(id), answer.row) else old(liabilities)
    {
      if answer.Ok? {
        liabilities := ReplaceWhere(liabilities, LiabilityHasId(id), answer.row);
      }
    }

    /** `deleteAsset`: on success the assets with the id are dropped; net worth falls by their amounts. */
    method DeleteAsset(id: string, answer: Outcome<()>)
      modifies this
      ensures liabilities == old(liabilities) && history == old(history) && loading == old(loading)
      ensures assets == if answer.Ok? then RemoveWhere(old(assets), AssetHasId(id)) else old(assets)
      ensures answer.Ok? ==> forall a :: a in assets ==> a.id != id
      ensures answer.Ok? ==> NetWorth() == old(NetWorth()) - Sum(Filter(old(assets), AssetHasId(id)), AssetAmount)
      ensures answer.Ok? ==> forall a :: a in old(assets) && a.id != id ==> a in assets
      ensures answer.Ok? ==> forall a, b :: old(assets) == a + b ==> assets == RemoveWhere(a, AssetHasId(id)) + RemoveWhere(b, AssetHasId(id))
    {
      if answer.Ok? {
        SumRemoveWhere(assets, AssetHasId(id), AssetAmount);
        RemoveWhereSplits(assets, AssetHasId(id));
        assets := RemoveWhere(assets, AssetHasId(id));
      }
    }

    /** `deleteLiability`: on success the liabilities with the id are dropped; net worth grows by their amounts. */
    method DeleteLiability(id: string, answer: Outcome<()>)
      modifies this
      ensures assets == old(assets) && history == old(history) && loading == old(loading)
      ensures liabilities == if answer.Ok? then RemoveWhere(old(liabilities), LiabilityHasId(id)) else old(liabilities)
      ensures answer.Ok? ==> forall l :: l in liabilities ==> l.id != id
      ensures answer.Ok? ==> NetWorth() == old(NetWorth()) + Sum(Filter(old(liabilities), LiabilityHasId(id)), LiabilityAmount)
      ensures answer.Ok? ==> forall l :: l in old(liabilities) && l.id != id ==> l in liabilities
      ensures answer.Ok? ==> forall a, b :: old(liabilities) == a + b ==> liabilities == RemoveWhere(a, LiabilityHasId(id)) + RemoveWhere(b, LiabilityHasId(id))
    {
      if answer.Ok? {
        SumRemoveWhere(liabilities, LiabilityHasId(id), LiabilityAmount);
        RemoveWhereSplits(liabilities, LiabilityHasId(id));
        liabilities := RemoveWhere(liabilities, LiabilityHasId(id));
      }
    }
  }

  /** Deleting an asset and adding it back at the end restores the totals, whatever its position was. */
  lemma DeleteThenAddAsset(assets: seq<Asset>, i: nat)
    requires i < |assets|
    requires forall j :: 0 <= j < |assets| && j != i ==> assets[j].id != assets[i].id
    ensures TotalAssets(RemoveWhere(assets, AssetHasId(assets[i].id)) + [assets[i]]) == TotalAssets(assets)
  {
    var id := assets[i].id;
    SumRemoveWhere(assets, AssetHasId(id), AssetAmount);
    SumSnoc(RemoveWhere(assets, AssetHasId(id)), assets[i], AssetAmount);
    FilterSingle(assets, AssetHasId(id), i);
  }

  lemma {:induction false} FilterSingle<T>(s: seq<T>, p: T -> bool, i: nat)
    requires i < |s| && p(s[i])
    requires forall j :: 0 <= j < |s| && j != i ==> !p(s[j])
    ensures Filter(s, p) == [s[i]]
  {
    if i == 0 {
      FilterNone(s[1..], p);
    } else {
      FilterSingle(s[1..], p, i - 1);
    }
  }
}
