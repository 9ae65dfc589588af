/**
 * The pieces the record-creation forms share: the nested person record of
 * the expenditure and assignment forms, Yup's numeric rules over a number
 * input, and the asset→base effect of the forms that pick an asset.
 */
module Forms {
  import opened Wrappers
  import opened Session
  import opened Inventory

  /** `{ name, rank, id }`: who expended or received the asset. */
  datatype Person = Person(name: string, rank: string, id: string)

  const NoPerson := Person("", "", "")

  datatype PersonField = Name | Rank | Id

  /** The nested person schema: all three fields are `required()`. */
  function PersonErrors(p: Person): (errs: set<PersonField>)
    ensures Name in errs <==> p.name == ""
    ensures Rank in errs <==> p.rank == ""
    ensures Id in errs <==> p.id == ""
  {
    (if p.name == "" then {Name} else {})
    + (if p.rank == "" then {Rank} else {})
    + (if p.id == "" then {Id} else {})
  }

  /** The empty person fails on all three fields. */
  lemma NoPersonRejected()
    ensures PersonErrors(NoPerson) == {Name, Rank, Id}
  {
  }

  /**
   * A number input's value. Formik stores the parsed number, or '' when the
   * input does not hold one; None stands for that ''.
   */
  type NumberInput = Option<real>

  predicate Whole(x: real) {
    x.Floor as real == x
  }

  /** `Yup.number().required().positive().integer()`. */
  predicate PositiveWhole(q: NumberInput) {
    q.Some? && q.value > 0.0 && Whole(q.value)
  }

  /** `Yup.number().required().positive()`. */
  predicate Positive(q: NumberInput) {
    q.Some? && q.value > 0.0
  }

  /** `Yup.number().required().min(0)`. */
  predicate AtLeastZero(q: NumberInput) {
    q.Some? && q.value >= 0.0
  }

  /** A positive whole quantity is a count of at least one. */
  lemma PositiveWholeIsCount(q: NumberInput)
    requires PositiveWhole(q)
    ensures q.value >= 1.0 && q.value.Floor >= 1
  {
  }

  /**
   * The asset→base effect's result for the base field: the base of the
   * listed asset with the chosen id when there is one, the current base
   * otherwise.
   */
  function SyncedBase(available: seq<Asset>, assetId: string, base: string): string {
    match FindById(available, assetId)
    case Some(a) => a.base
    case None => base
  }

  /**
   * The synced base is the current one or the base of a listed asset, and
   * it only moves when a listed asset has the chosen id.
   */
  lemma SyncedBaseFromList(available: seq<Asset>, assetId: string, base: string)
    ensures var b := SyncedBase(available, assetId, base);
      (b == base || exists a :: a in available && a.base == b)
      && ((forall a :: a in available ==> a.id != assetId) ==> b == base)
  {
  }

  /**
   * For a user whose list is narrowed to the home base, the effect can
   * never move the base field off that base, whatever asset is chosen.
   */
  lemma SyncKeepsHomeBase(assets: seq<Asset>, user: Option<User>, role: Role, assetId: string)
    requires HomeBase(user, role) != ""
    ensures SyncedBase(VisibleAssets(assets, user, role), assetId, HomeBase(user, role)) == HomeBase(user, role)
  {
  }
}
