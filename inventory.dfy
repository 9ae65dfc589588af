/**
 * The asset list that the expenditure, assignment and purchase forms fetch,
 * narrow to the user's base, and search by id.
 */
module Inventory {
  import opened Wrappers
  import opened Session

  datatype Asset = Asset(id: string, name: string, assetType: string, base: string)

  /** `assets.find(a => a._id === id)`: the first asset with that id, if any. */
  function FindById(assets: seq<Asset>, id: string): (r: Option<Asset>)
    ensures r.None? <==> forall a :: a in assets ==> a.id != id
    ensures r.Some? ==> r.value in assets && r.value.id == id
  {
    if assets == [] then None
    else if assets[0].id == id then Some(assets[0])
    else FindById(assets[1..], id)
  }

  /** What `find` returns is the asset at the first position holding the id. */
  lemma {:induction false} FindByIdIsFirst(assets: seq<Asset>, id: string, i: int)
    requires FirstWithId(assets, id, i)
    ensures FindById(assets, id) == Some(assets[i])
  {
    if i > 0 {
      assert FirstWithId(assets[1..], id, i - 1);
      FindByIdIsFirst(assets[1..], id, i - 1);
    }
  }

  /** `i` is the position of the first asset whose id is `id`. */
  predicate FirstWithId(assets: seq<Asset>, id: string, i: int) {
    0 <= i < |assets| && assets[i].id == id && forall j :: 0 <= j < i ==> assets[j].id != id
  }

  /** `assets.filter(asset => asset.base === base)`. */
  function AtBase(assets: seq<Asset>, base: string): (r: seq<Asset>)
    ensures forall a :: a in r <==> a in assets && a.base == base
    ensures |r| <= |assets|
  {
    if assets == [] then []
    else if assets[0].base == base then [assets[0]] + AtBase(assets[1..], base)
    else AtBase(assets[1..], base)
  }

  /** Filtering keeps the assets it keeps in their order: it distributes over concatenation. */
  lemma {:induction false} AtBaseAppend(xs: seq<Asset>, ys: seq<Asset>, base: string)
    ensures AtBase(xs + ys, base) == AtBase(xs, base) + AtBase(ys, base)
  {
    if xs == [] {
      assert xs + ys == ys;
    } else {
      assert (xs + ys)[1..] == xs[1..] + ys;
      AtBaseAppend(xs[1..], ys, base);
    }
  }

  /**
   * The assets a user with `role` may pick from: only those at the user's base
   * when the user has that role and an assigned base, otherwise all of them.
   * Each form names the role it restricts.
   */
  function VisibleAssets(assets: seq<Asset>, user: Option<User>, role: Role): (r: seq<Asset>)
    ensures HomeBase(user, role) != "" ==> forall a :: a in r <==> a in assets && a.base == HomeBase(user, role)
    ensures HomeBase(user, role) == "" ==> r == assets
  {
    var base := HomeBase(user, role);
    if base != "" then AtBase(assets, base) else assets
  }

  /**
   * The preselection step: with an `asset` id in the query, the first asset in
   * the visible list with that id, if any; nothing without a query id.
   */
  function Preselect(visible: seq<Asset>, queryAsset: Option<string>): (r: Option<Asset>)
    ensures r.Some? ==> queryAsset.Some? && r.value in visible && r.value.id == queryAsset.value
    ensures queryAsset.Some? && queryAsset.value != "" && (exists a :: a in visible && a.id == queryAsset.value) ==> r.Some?
  {
    if queryAsset.Some? && queryAsset.value != "" then FindById(visible, queryAsset.value) else None
  }
}
