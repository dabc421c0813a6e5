/**
 * The account tree of a program and the partitions between its consumers
 * (buildProgramAccountTree and BudgetAccountRepository.createBatch in src/budget/budget-ledger.ts).
 */
module AccountTree {
  import opened Wrappers
  import opened Totals
  import opened BudgetVectors
  import opened LedgerModel
  import opened LedgerFrames
  import opened LedgerInvariants

  datatype Allocation = Allocation(
    planning: Vector, minimumDelivery: Vector, upgradePool: Vector,
    validation: Vector, contingency: Vector, closeout: Vector)

  datatype Row = Row(id: Id, account: Account)

  function KindName(k: Kind): string {
    match k
    case Root => "budget"
    case Planning => "planning"
    case Execution => "execution"
    case Minimum => "minimum"
    case UpgradePool => "upgrade_pool"
    case Standard => "standard"
    case Stretch => "stretch"
    case Validation => "validation"
    case Contingency => "contingency"
    case Closeout => "closeout"
  }

  /** The readable identifier, or one that starts with a digest of the program when it would be too long. */
  function AccountId(program: Id, digest: string, k: Kind): Id {
    var readable := program + ":" + KindName(k);
    if |readable| <= 128 then readable else "acct:" + digest + ":" + KindName(k)
  }

  function Leaves(al: Allocation): seq<Vector> {
    [al.planning, al.minimumDelivery, al.upgradePool, al.validation, al.contingency, al.closeout]
  }

  function Fresh(program: Id, digest: string, k: Kind, parent: Option<Kind>, limit: Vector, isProtected: bool): Row {
    Row(AccountId(program, digest, k),
        Account(program, if parent.Some? then Some(AccountId(program, digest, parent.value)) else None,
                k, limit, map[], map[], isProtected, 0))
  }

  function TreeRows(program: Id, digest: string, al: Allocation, total: Vector, execution: Vector): seq<Row> {
    [ Fresh(program, digest, Root, None, total, false),
      Fresh(program, digest, Planning, Some(Root), al.planning, true),
      Fresh(program, digest, Execution, Some(Root), execution, false),
      Fresh(program, digest, Minimum, Some(Execution), al.minimumDelivery, false),
      Fresh(program, digest, UpgradePool, Some(Execution), al.upgradePool, false),
      Fresh(program, digest, Validation, Some(Root), al.validation, true),
      Fresh(program, digest, Contingency, Some(Root), al.contingency, true),
      Fresh(program, digest, Closeout, Some(Root), al.closeout, true) ]
  }

  function BuildTree(program: Id, digest: string, al: Allocation): Result<seq<Row>, LedgerError> {
    if !AddFits(al.minimumDelivery, al.upgradePool) then Failure(BudgetOverflow)
    else
      match Sum(Leaves(al))
      case None => Failure(BudgetOverflow)
      case Some(total) => Success(TreeRows(program, digest, al, total, Plus(al.minimumDelivery, al.upgradePool)))
  }

  // ----- createBatch -----

  ghost predicate DistinctIds(rows: seq<Row>) {
    forall i, j :: 0 <= i < j < |rows| ==> rows[i].id != rows[j].id
  }

  ghost predicate HasId(rows: seq<Row>, id: Id) {
    exists i :: 0 <= i < |rows| && rows[i].id == id
  }

  ghost predicate PlacedInBatch(rows: seq<Row>, a: Account) {
    if a.kind == Root then a.parent.None? else a.parent.Some? && HasId(rows, a.parent.value)
  }

  ghost predicate StartsWithinLimit(a: Account) {
    AddFits(a.spent, a.reserved) && Fits(Plus(a.spent, a.reserved), a.limit)
  }

  /** The limits of the children of one account, in batch order. */
  function ChildLimits(rows: seq<Row>, id: Id): seq<Vector> {
    if |rows| == 0 then []
    else
      var before := ChildLimits(rows[..|rows| - 1], id);
      var last := rows[|rows| - 1].account;
      if last.parent == Some(id) then before + [last.limit] else before
  }

  ghost predicate ChildrenWithinParent(rows: seq<Row>, row: Row) {
    forall d :: SumAt(ChildLimits(rows, row.id), d) <= At(row.account.limit, d)
  }

  ghost predicate BatchAccepted(rows: seq<Row>) {
    && DistinctIds(rows)
    && AccountsFine(rows, |rows|)
    && ChildrenFine(rows, |rows|)
  }

  /** Why an account is refused: its place in the tree first, then its opening balance. */
  ghost predicate RefusesAccount(rows: seq<Row>, a: Account, e: LedgerError) {
    if !PlacedInBatch(rows, a) then e == Conflict
    else if !AddFits(a.spent, a.reserved) then e == BudgetOverflow
    else e == Exceeded && !Fits(Plus(a.spent, a.reserved), a.limit)
  }

  /** Why the children of an account are refused: their limits cannot be added, or exceed its own. */
  ghost predicate RefusesChildren(rows: seq<Row>, row: Row, e: LedgerError) {
    if exists d :: SumAt(ChildLimits(rows, row.id), d) > MAX_SAFE_INTEGER then e == BudgetOverflow
    else e == Exceeded && !ChildrenWithinParent(rows, row)
  }

  /** The first account that is refused, and why. */
  ghost predicate FirstRefusedAccount(rows: seq<Row>, e: LedgerError) {
    exists i :: 0 <= i < |rows| && AccountsFine(rows, i) && RefusesAccount(rows, rows[i].account, e)
  }

  /** The first account whose children are refused, and why. */
  ghost predicate FirstRefusedChildren(rows: seq<Row>, e: LedgerError) {
    exists i :: 0 <= i < |rows| && ChildrenFine(rows, i) && RefusesChildren(rows, rows[i], e)
  }

  /** The checks on one account: its place in the tree, then its opening balance. */
  method CheckAccount(a: Account, byId: set<Id>, ghost rows: seq<Row>) returns (error: Option<LedgerError>)
    requires forall id :: id in byId <==> HasId(rows, id)
    ensures error == None <==> PlacedInBatch(rows, a) && StartsWithinLimit(a)
    ensures error.Some? ==> RefusesAccount(rows, a, error.value)
  {
    if a.kind == Root && a.parent.Some? {
      return Some(Conflict);
    }
    if a.kind != Root && (a.parent.None? || a.parent.value !in byId) {
      return Some(Conflict);
    }
    var committed := AddBudgetVectors(a.spent, a.reserved);
    if committed.Failure? {
      return Some(BudgetOverflow);
    }
    if !Fits(committed.value, a.limit) {
      return Some(Exceeded);
    }
    error := None;
  }

  /** The limits of an account's children, summed, must fit its own limit. */
  method CheckChildren(rows: seq<Row>, row: Row) returns (error: Option<LedgerError>)
    ensures error == None <==> ChildrenWithinParent(rows, row)
    ensures error.Some? ==> RefusesChildren(rows, row, error.value)
  {
    var limits := ChildLimits(rows, row.id);
    var total := SumBudgetVectors(limits);
    if total.Failure? {
      assert exists d :: SumAt(limits, d) > MAX_SAFE_INTEGER;
      assert forall d :: At(row.account.limit, d) <= MAX_SAFE_INTEGER;
      return Some(BudgetOverflow);
    }
    assert forall d :: At(total.value, d) == SumAt(limits, d);
    if !Fits(total.value, row.account.limit) {
      return Some(Exceeded);
    }
    error := None;
  }

  method CollectIds(rows: seq<Row>) returns (byId: set<Id>, distinct: bool)
    ensures distinct <==> DistinctIds(rows)
    ensures distinct ==> forall id :: id in byId <==> HasId(rows, id)
  {
    byId, distinct := {}, true;
    for i := 0 to |rows|
      invariant forall id :: id in byId <==> exists j :: 0 <= j < i && rows[j].id == id
      invariant distinct <==> forall j, k :: 0 <= j < k < i ==> rows[j].id != rows[k].id
    {
      if rows[i].id in byId {
        distinct := false;
      }
      byId := byId + {rows[i].id};
    }
  }

  ghost predicate AccountsFine(rows: seq<Row>, n: nat)
    requires n <= |rows|
  {
    forall j :: 0 <= j < n ==> PlacedInBatch(rows, rows[j].account) && StartsWithinLimit(rows[j].account)
  }

  method CheckAccounts(rows: seq<Row>, byId: set<Id>) returns (error: Option<LedgerError>)
    requires forall id :: id in byId <==> HasId(rows, id)
    ensures error == None <==> AccountsFine(rows, |rows|)
    ensures error.Some? ==> FirstRefusedAccount(rows, error.value)
  {
    for i := 0 to |rows|
      invariant AccountsFine(rows, i)
    {
      error := CheckAccount(rows[i].account, byId, rows);
      if error.Some? {
        return;
      }
    }
    error := None;
  }

  ghost predicate ChildrenFine(rows: seq<Row>, n: nat)
    requires n <= |rows|
  {
    forall j :: 0 <= j < n ==> ChildrenWithinParent(rows, rows[j])
  }

  method CheckAllChildren(rows: seq<Row>) returns (error: Option<LedgerError>)
    ensures error == None <==> ChildrenFine(rows, |rows|)
    ensures error.Some? ==> FirstRefusedChildren(rows, error.value)
  {
    for i := 0 to |rows|
      invariant ChildrenFine(rows, i)
    {
      error := CheckChildren(rows, rows[i]);
      if error.Some? {
        return;
      }
    }
    error := None;
  }

  /** The checks of createBatch, in the source's order; the rows are inserted only if it returns None. */
  method CheckBatch(rows: seq<Row>) returns (error: Option<LedgerError>)
    ensures error == None <==> BatchAccepted(rows)
    ensures error.Some? ==>
              if !DistinctIds(rows) then error.value == Conflict
              else if !AccountsFine(rows, |rows|) then FirstRefusedAccount(rows, error.value)
              else FirstRefusedChildren(rows, error.value)
  {
    var byId, distinct := CollectIds(rows);
    if !distinct {
      return Some(Conflict);
    }
    error := CheckAccounts(rows, byId);
    if error.None? {
      error := CheckAllChildren(rows);
    }
  }

  // ----- The tree is exact -----

  lemma NoColonInName(k: Kind)
    ensures ':' !in KindName(k)
  {
  }

  /** A name follows the last colon of an identifier, so it can be read back. */
  lemma NameIsReadable(a: string, b: string, j: Kind, k: Kind)
    requires a + ":" + KindName(j) == b + ":" + KindName(k)
    ensures KindName(j) == KindName(k)
  {
    var x, y := KindName(j), KindName(k);
    if |a| < |b| {
      ColonInside(a, x, b, y);
      NoColonInName(j);
    } else if |b| < |a| {
      ColonInside(b, y, a, x);
      NoColonInName(k);
    } else {
      assert (a + ":" + x)[|a| + 1..] == x && (b + ":" + y)[|b| + 1..] == y;
    }
  }

  lemma ColonInside(a: string, x: string, b: string, y: string)
    requires a + ":" + x == b + ":" + y && |a| < |b|
    ensures ':' in x
  {
    assert (a + ":" + x)[|b|] == x[|b| - |a| - 1];
  }

  lemma AccountIdsDiffer(program: Id, digest: string, j: Kind, k: Kind)
    requires KindName(j) != KindName(k)
    ensures AccountId(program, digest, j) != AccountId(program, digest, k)
  {
    var long := "acct:" + digest;
    if AccountId(program, digest, j) == AccountId(program, digest, k) {
      var a := if |program + ":" + KindName(j)| <= 128 then program else long;
      var b := if |program + ":" + KindName(k)| <= 128 then program else long;
      assert AccountId(program, digest, j) == a + ":" + KindName(j);
      assert AccountId(program, digest, k) == b + ":" + KindName(k);
      NameIsReadable(a, b, j, k);
    }
  }

  /** The kinds of the tree, one account each, in definition order. */
  const TREE_KINDS: seq<Kind> := [Root, Planning, Execution, Minimum, UpgradePool, Validation, Contingency, Closeout]

  lemma RowId(program: Id, digest: string, al: Allocation, total: Vector, execution: Vector, i: nat)
    requires i < 8
    ensures TreeRows(program, digest, al, total, execution)[i].id == AccountId(program, digest, TREE_KINDS[i])
  {
  }

  lemma TreeIdsDistinct(program: Id, digest: string, al: Allocation, total: Vector, execution: Vector)
    ensures DistinctIds(TreeRows(program, digest, al, total, execution))
  {
    var rows := TreeRows(program, digest, al, total, execution);
    forall i, j | 0 <= i < j < |rows| ensures rows[i].id != rows[j].id {
      RowId(program, digest, al, total, execution, i);
      RowId(program, digest, al, total, execution, j);
      TreeNamesDiffer(i, j);
      AccountIdsDiffer(program, digest, TREE_KINDS[i], TREE_KINDS[j]);
    }
  }

  lemma TreeNamesDiffer(i: nat, j: nat)
    requires i < j < |TREE_KINDS|
    ensures KindName(TREE_KINDS[i]) != KindName(TREE_KINDS[j])
  {
  }

  function LimitIf(row: Row, id: Id): seq<Vector> {
    if row.account.parent == Some(id) then [row.account.limit] else []
  }

  lemma ChildLimitsStep(rows: seq<Row>, k: nat, id: Id)
    requires k < |rows|
    ensures ChildLimits(rows[..k + 1], id) == ChildLimits(rows[..k], id) + LimitIf(rows[k], id)
  {
    assert rows[..k + 1][..k] == rows[..k];
  }

  /** The children of the account of kind k, in the order of the tree. */
  function TreeChildren(al: Allocation, execution: Vector, k: Kind): seq<Vector> {
    match k
    case Root => [al.planning, execution, al.validation, al.contingency, al.closeout]
    case Execution => [al.minimumDelivery, al.upgradePool]
    case _ => []
  }

  /** Which rows of the tree are children of the account of kind k. */
  lemma TreeParents(program: Id, digest: string, al: Allocation, total: Vector, execution: Vector, k: Kind, i: nat)
    requires i < 8
    ensures TreeRows(program, digest, al, total, execution)[i].account.parent == Some(AccountId(program, digest, k))
            <==> (k == Root && i in {1, 2, 5, 6, 7}) || (k == Execution && i in {3, 4})
  {
    if k != Root {
      RootNameDiffers(k);
      AccountIdsDiffer(program, digest, Root, k);
    }
    if k != Execution {
      ExecutionNameDiffers(k);
      AccountIdsDiffer(program, digest, Execution, k);
    }
  }

  lemma TreeChildLimits(program: Id, digest: string, al: Allocation, total: Vector, execution: Vector, k: Kind)
    ensures ChildLimits(TreeRows(program, digest, al, total, execution), AccountId(program, digest, k))
            == TreeChildren(al, execution, k)
  {
    var rows, id := TreeRows(program, digest, al, total, execution), AccountId(program, digest, k);
    forall i | 0 <= i < 8
      ensures rows[i].account.parent == Some(id) <==> (k == Root && i in {1, 2, 5, 6, 7}) || (k == Execution && i in {3, 4})
    {
      TreeParents(program, digest, al, total, execution, k, i);
    }
    EightChildLimits(rows, id);
    ChildrenListed(rows, id, al, execution, k);
  }

  lemma ChildrenListed(rows: seq<Row>, id: Id, al: Allocation, execution: Vector, k: Kind)
    requires |rows| == 8
    requires forall i :: 0 <= i < 8 ==>
               (rows[i].account.parent == Some(id) <==> (k == Root && i in {1, 2, 5, 6, 7}) || (k == Execution && i in {3, 4}))
    requires rows[1].account.limit == al.planning && rows[2].account.limit == execution
    requires rows[3].account.limit == al.minimumDelivery && rows[4].account.limit == al.upgradePool
    requires rows[5].account.limit == al.validation && rows[6].account.limit == al.contingency && rows[7].account.limit == al.closeout
    ensures LimitIf(rows[0], id) + LimitIf(rows[1], id) + LimitIf(rows[2], id) + LimitIf(rows[3], id)
            + LimitIf(rows[4], id) + LimitIf(rows[5], id) + LimitIf(rows[6], id) + LimitIf(rows[7], id) == TreeChildren(al, execution, k)
  {
  }

  lemma EightChildLimits(rows: seq<Row>, id: Id)
    requires |rows| == 8
    ensures ChildLimits(rows, id) == LimitIf(rows[0], id) + LimitIf(rows[1], id) + LimitIf(rows[2], id) + LimitIf(rows[3], id)
                                     + LimitIf(rows[4], id) + LimitIf(rows[5], id) + LimitIf(rows[6], id) + LimitIf(rows[7], id)
  {
    FourChildLimits(rows, id);
    ChildLimitsStep(rows, 4, id);
    ChildLimitsStep(rows, 5, id);
    ChildLimitsStep(rows, 6, id);
    ChildLimitsStep(rows, 7, id);
    assert rows[..8] == rows;
  }

  lemma FourChildLimits(rows: seq<Row>, id: Id)
    requires |rows| == 8
    ensures ChildLimits(rows[..4], id) == LimitIf(rows[0], id) + LimitIf(rows[1], id) + LimitIf(rows[2], id) + LimitIf(rows[3], id)
  {
    assert rows[..0] == [];
    ChildLimitsStep(rows, 0, id);
    ChildLimitsStep(rows, 1, id);
    ChildLimitsStep(rows, 2, id);
    ChildLimitsStep(rows, 3, id);
  }

  lemma RootNameDiffers(k: Kind)
    requires k != Root
    ensures KindName(k) != KindName(Root)
  {
  }

  lemma ExecutionNameDiffers(k: Kind)
    requires k != Execution
    ensures KindName(k) != KindName(Execution)
  {
  }

  lemma SumOfLeaves(al: Allocation, d: Dimension)
    ensures SumAt(Leaves(al), d) == At(al.planning, d) + At(al.minimumDelivery, d) + At(al.upgradePool, d)
                                    + At(al.validation, d) + At(al.contingency, d) + At(al.closeout, d)
  {
    var vs := Leaves(al);
    SumAtPrefix(vs, 0, d);
    SumAtPrefix(vs, 1, d);
    SumAtPrefix(vs, 2, d);
    SumAtPrefix(vs, 3, d);
    SumAtPrefix(vs, 4, d);
    SumAtPrefix(vs, 5, d);
    assert vs[..6] == vs;
  }

  lemma SumOfChildren(al: Allocation, execution: Vector, k: Kind, d: Dimension)
    ensures SumAt(TreeChildren(al, execution, k), d) ==
            (if k == Root then At(al.planning, d) + At(execution, d) + At(al.validation, d) + At(al.contingency, d) + At(al.closeout, d)
             else if k == Execution then At(al.minimumDelivery, d) + At(al.upgradePool, d)
             else 0)
  {
    var vs := TreeChildren(al, execution, k);
    if k == Root {
      SumAtPrefix(vs, 0, d);
      SumAtPrefix(vs, 1, d);
      SumAtPrefix(vs, 2, d);
      SumAtPrefix(vs, 3, d);
      SumAtPrefix(vs, 4, d);
      assert vs[..5] == vs;
    } else if k == Execution {
      SumAtPrefix(vs, 0, d);
      SumAtPrefix(vs, 1, d);
      assert vs[..2] == vs;
    }
  }

  lemma TreeLimitAt(program: Id, digest: string, al: Allocation)
    requires BuildTree(program, digest, al).Success?
    ensures |BuildTree(program, digest, al).value| == 8
    ensures BuildTree(program, digest, al).value[0].account.limit == Sum(Leaves(al)).value
    ensures BuildTree(program, digest, al).value[2].account.limit == Plus(al.minimumDelivery, al.upgradePool)
  {
    RowLimits(program, digest, al, Sum(Leaves(al)).value, Plus(al.minimumDelivery, al.upgradePool));
  }

  lemma RowLimits(program: Id, digest: string, al: Allocation, total: Vector, execution: Vector)
    ensures |TreeRows(program, digest, al, total, execution)| == 8
    ensures TreeRows(program, digest, al, total, execution)[0].account.limit == total
    ensures TreeRows(program, digest, al, total, execution)[2].account.limit == execution
  {
  }

  lemma ChildrenWithinSums(al: Allocation, kind: Kind, d: Dimension)
    requires AddFits(al.minimumDelivery, al.upgradePool) && Sum(Leaves(al)).Some?
    ensures SumAt(TreeChildren(al, Plus(al.minimumDelivery, al.upgradePool), kind), d)
            == if kind == Root then At(Sum(Leaves(al)).value, d)
               else if kind == Execution then At(Plus(al.minimumDelivery, al.upgradePool), d) else 0
  {
    var execution := Plus(al.minimumDelivery, al.upgradePool);
    assert At(execution, d) == At(al.minimumDelivery, d) + At(al.upgradePool, d);
    SumOfChildren(al, execution, kind, d);
    SumOfLeaves(al, d);
  }

  lemma LimitCoversChildren(rows: seq<Row>, al: Allocation, k: nat, d: Dimension)
    requires |rows| == 8 && k < 8 && AddFits(al.minimumDelivery, al.upgradePool) && Sum(Leaves(al)).Some?
    requires rows[0].account.limit == Sum(Leaves(al)).value
    requires rows[2].account.limit == Plus(al.minimumDelivery, al.upgradePool)
    ensures SumAt(TreeChildren(al, Plus(al.minimumDelivery, al.upgradePool), TREE_KINDS[k]), d) <= At(rows[k].account.limit, d)
  {
    ChildrenWithinSums(al, TREE_KINDS[k], d);
    assert k != 0 && k != 2 ==> TREE_KINDS[k] != Root && TREE_KINDS[k] != Execution;
  }

  lemma TreeChildrenFit(program: Id, digest: string, al: Allocation, k: nat)
    requires BuildTree(program, digest, al).Success? && k < 8
    ensures ChildrenWithinParent(BuildTree(program, digest, al).value, BuildTree(program, digest, al).value[k])
  {
    assert BuildTree(program, digest, al).value[k].id == AccountId(program, digest, TREE_KINDS[k]);
    TreeChildLimits(program, digest, al, Sum(Leaves(al)).value, Plus(al.minimumDelivery, al.upgradePool), TREE_KINDS[k]);
    TreeLimitAt(program, digest, al);
    forall d
      ensures SumAt(TreeChildren(al, Plus(al.minimumDelivery, al.upgradePool), TREE_KINDS[k]), d)
              <= At(BuildTree(program, digest, al).value[k].account.limit, d)
    {
      LimitCoversChildren(BuildTree(program, digest, al).value, al, k, d);
    }
  }

  /** A tree is built exactly when the whole allocation is a safe amount. */
  lemma TreeIsBuilt(program: Id, digest: string, al: Allocation)
    ensures BuildTree(program, digest, al).Success? <==> forall d :: SumAt(Leaves(al), d) <= MAX_SAFE_INTEGER
  {
    AddFitsMeans(al.minimumDelivery, al.upgradePool);
    forall d ensures At(al.minimumDelivery, d) + At(al.upgradePool, d) <= SumAt(Leaves(al), d) {
      SumOfLeaves(al, d);
    }
    if !AddFits(al.minimumDelivery, al.upgradePool) {
      var d :| At(al.minimumDelivery, d) + At(al.upgradePool, d) > MAX_SAFE_INTEGER;
      assert SumAt(Leaves(al), d) > MAX_SAFE_INTEGER;
    } else if Sum(Leaves(al)).Some? {
      forall d ensures SumAt(Leaves(al), d) <= MAX_SAFE_INTEGER {
        assert At(Sum(Leaves(al)).value, d) == SumAt(Leaves(al), d);
      }
    } else {
      var d :| SumAt(Leaves(al), d) > MAX_SAFE_INTEGER;
      assert BuildTree(program, digest, al).Failure?;
      assert !(SumAt(Leaves(al), d) <= MAX_SAFE_INTEGER);
    }
  }

  lemma UntouchedStarts(a: Account)
    requires a.spent == map[] && a.reserved == map[]
    ensures StartsWithinLimit(a)
  {
  }

  lemma TreeAccountFine(program: Id, digest: string, al: Allocation, i: nat)
    requires BuildTree(program, digest, al).Success? && i < 8
    ensures PlacedInBatch(BuildTree(program, digest, al).value, BuildTree(program, digest, al).value[i].account)
    ensures StartsWithinLimit(BuildTree(program, digest, al).value[i].account)
  {
    var rows := BuildTree(program, digest, al).value;
    var a := rows[i].account;
    assert a.kind != Root ==> a.parent == Some(rows[0].id) || a.parent == Some(rows[2].id);
    assert HasId(rows, rows[0].id) && HasId(rows, rows[2].id);
    UntouchedStarts(a);
  }

  /** Every tree passes createBatch, and its root limit is the sum of the leaf limits. */
  lemma TreeIsAccepted(program: Id, digest: string, al: Allocation)
    requires BuildTree(program, digest, al).Success?
    ensures BatchAccepted(BuildTree(program, digest, al).value)
    ensures BuildTree(program, digest, al).value[0].account.kind == Root
    ensures forall d :: At(BuildTree(program, digest, al).value[0].account.limit, d) == SumAt(Leaves(al), d)
  {
    var rows := BuildTree(program, digest, al).value;
    TreeIdsDistinct(program, digest, al, Sum(Leaves(al)).value, Plus(al.minimumDelivery, al.upgradePool));
    forall i | 0 <= i < 8 ensures PlacedInBatch(rows, rows[i].account) && StartsWithinLimit(rows[i].account) {
      TreeAccountFine(program, digest, al, i);
    }
    forall i | 0 <= i < 8 ensures ChildrenWithinParent(rows, rows[i]) {
      TreeChildrenFit(program, digest, al, i);
    }
  }

  // ----- Partitions -----

  /** All reservations are on accounts the consumer class may use. */
  ghost predicate OnlyClass(s: Ledger, c: ConsumerClass) {
    forall id :: id in s.reservations && s.reservations[id].account in s.accounts ==>
      s.accounts[s.reservations[id].account].kind in AllowedKinds(c)
  }

  ghost predicate ReservesFor(ops: seq<Op>, c: ConsumerClass) {
    forall k :: 0 <= k < |ops| && ops[k].DoReserve? ==> ops[k].reserve.consumer == c
  }

  /** The account an effect writes is the account of the row it writes. */
  lemma BalanceIsOfRow(s: Ledger, op: Op)
    requires !op.SetProgram? && Decide(s, op).Success? && Decide(s, op).value.Write?
    ensures var e := Decide(s, op).value;
            e.balance.Some? ==> e.balance.value.account == e.row.account
                                && (e.id in s.reservations ==> s.reservations[e.id].account == e.row.account)
  {
    match op
    case DoReserve(i) => ReserveRow(s, i);
    case DoActivate(id, expected, request) => TransitionRow(s, op);
    case DoMarkUncertain(id, expected) => TransitionRow(s, op);
    case DoRelease(id, expected) => ReleaseRow(s, id, expected);
    case DoSettle(i) =>
      SettleWrites(s, i);
      SettleBranches(s, i);
  }

  lemma StepKeepsClass(s: Ledger, op: Op, c: ConsumerClass)
    requires AllLinked(s) && OnlyClass(s, c) && (op.DoReserve? ==> op.reserve.consumer == c)
    ensures OnlyClass(Step(s, op), c)
  {
    var t := Step(s, op);
    StepEvolves(s, op);
    forall id | id in t.reservations && t.reservations[id].account in t.accounts
      ensures t.accounts[t.reservations[id].account].kind in AllowedKinds(c)
    {
      assert SameAccount(s.accounts[t.reservations[id].account], t.accounts[t.reservations[id].account]);
      if id in s.reservations {
        assert SameReservation(s.reservations[id], t.reservations[id]);
      } else {
        NewRow(s, op, id);
      }
    }
  }

  lemma StepIsolated(s: Ledger, op: Op, c: ConsumerClass, a: Id)
    requires AllLinked(s) && OnlyClass(s, c) && (op.DoReserve? ==> op.reserve.consumer == c)
    ensures OnlyClass(Step(s, op), c)
    ensures a in s.accounts && s.accounts[a].kind !in AllowedKinds(c) ==>
              a in Step(s, op).accounts && Step(s, op).accounts[a] == s.accounts[a]
  {
    StepKeepsClass(s, op, c);
    if !op.SetProgram? && Decide(s, op).Success? && Decide(s, op).value.Write? {
      StepEvolves(s, op);
      BalanceIsOfRow(s, op);
      RowWritten(s, op);
    }
  }

  /** A run that reserves for one consumer class only leaves every account outside that class as it was. */
  lemma {:induction false} PartitionIsolation(s: Ledger, ops: seq<Op>, c: ConsumerClass, a: Id)
    requires WellFormed(s) && OnlyClass(s, c) && ReservesFor(ops, c)
    requires a in s.accounts && s.accounts[a].kind !in AllowedKinds(c)
    ensures a in Run(s, ops).accounts && Run(s, ops).accounts[a] == s.accounts[a]
    decreases |ops|
  {
    if |ops| > 0 {
      StepIsolated(s, ops[0], c, a);
      StepWellFormed(s, ops[0]);
      PartitionIsolation(Step(s, ops[0]), ops[1..], c, a);
    }
  }

  // ----- The root limit -----

  /** The ledger holds the accounts of one program's tree, with the limits it was built with. */
  ghost predicate HasTree(s: Ledger, rows: seq<Row>) {
    forall i :: 0 <= i < |rows| ==> rows[i].id in s.accounts && s.accounts[rows[i].id].limit == rows[i].account.limit
  }

  /** What an account has spent and reserved. */
  ghost function CommittedOn(s: Ledger, a: Id, d: Dimension): int
    requires a in s.accounts
  {
    At(s.accounts[a].spent, d) + At(s.accounts[a].reserved, d)
  }

  ghost function CommittedAt(s: Ledger, rows: seq<Row>, k: nat, d: Dimension): int
    requires HasTree(s, rows) && k < |rows|
  {
    CommittedOn(s, rows[k].id, d)
  }

  /** What all the accounts of the program have spent and reserved. */
  ghost function ProgramCommitted(s: Ledger, rows: seq<Row>, d: Dimension): int
    requires HasTree(s, rows) && |rows| == 8
  {
    CommittedAt(s, rows, 0, d) + CommittedAt(s, rows, 1, d) + CommittedAt(s, rows, 2, d) + CommittedAt(s, rows, 3, d)
    + CommittedAt(s, rows, 4, d) + CommittedAt(s, rows, 5, d) + CommittedAt(s, rows, 6, d) + CommittedAt(s, rows, 7, d)
  }

  ghost predicate NoReservationOn(s: Ledger, a: Id) {
    forall id :: id in s.reservations ==> s.reservations[id].account != a
  }

  ghost predicate NothingLate(s: Ledger) {
    forall id :: id in s.reservations ==> s.reservations[id].state != Reconciled
  }

  lemma NothingCommitted(s: Ledger, a: Id, d: Dimension)
    requires Books(s) && a in s.accounts && NoReservationOn(s, a)
    ensures At(s.accounts[a].spent, d) + At(s.accounts[a].reserved, d) == 0
  {
    assert BooksAt(s, a, d);
    TotalZero(s.reservations, RemainingOn(a, d));
    TotalZero(s.reservations, SettledOn(a, d));
  }

  lemma WithinLimit(s: Ledger, a: Id, d: Dimension)
    requires Books(s) && a in s.accounts && NothingLate(s)
    ensures At(s.accounts[a].spent, d) + At(s.accounts[a].reserved, d) <= At(s.accounts[a].limit, d)
  {
    assert BooksAt(s, a, d);
    TotalZero(s.reservations, LateOn(a, d));
  }

  lemma RootNotAllowed(c: ConsumerClass)
    ensures Root !in AllowedKinds(c)
  {
  }

  /** No consumer class may reserve on the root. */
  lemma StepAvoidsRoot(s: Ledger, op: Op, root: Id)
    requires AllLinked(s) && root in s.accounts && s.accounts[root].kind == Root && NoReservationOn(s, root)
    ensures NoReservationOn(Step(s, op), root)
  {
    var t := Step(s, op);
    StepEvolves(s, op);
    forall id | id in t.reservations ensures t.reservations[id].account != root {
      if id in s.reservations {
        assert SameReservation(s.reservations[id], t.reservations[id]);
      } else {
        NewRow(s, op, id);
        RootNotAllowed(op.reserve.consumer);
        assert t.reservations[id].account == op.reserve.account;
      }
    }
  }

  /**
   * As long as no usage is late, the whole program stays within its root limit and what is
   * committed on the execution account, whose limit its two children share.
   */
  lemma ProgramBound(s: Ledger, program: Id, digest: string, al: Allocation, d: Dimension)
    requires Books(s) && NothingLate(s)
    requires BuildTree(program, digest, al).Success? && HasTree(s, BuildTree(program, digest, al).value)
    requires NoReservationOn(s, AccountId(program, digest, Root))
    ensures ProgramCommitted(s, BuildTree(program, digest, al).value, d)
            <= At(BuildTree(program, digest, al).value[0].account.limit, d) + CommittedAt(s, BuildTree(program, digest, al).value, 2, d)
  {
    var rows := BuildTree(program, digest, al).value;
    NothingCommitted(s, rows[0].id, d);
    WithinLimit(s, rows[1].id, d);
    WithinLimit(s, rows[3].id, d);
    WithinLimit(s, rows[4].id, d);
    WithinLimit(s, rows[5].id, d);
    WithinLimit(s, rows[6].id, d);
    WithinLimit(s, rows[7].id, d);
    SumOfLeaves(al, d);
  }

  /** So the root limit holds for the whole program when nothing is reserved on the execution account. */
  lemma ProgramWithinRootLimit(s: Ledger, program: Id, digest: string, al: Allocation, d: Dimension)
    requires Books(s) && NothingLate(s)
    requires BuildTree(program, digest, al).Success? && HasTree(s, BuildTree(program, digest, al).value)
    requires NoReservationOn(s, AccountId(program, digest, Root)) && NoReservationOn(s, AccountId(program, digest, Execution))
    ensures ProgramCommitted(s, BuildTree(program, digest, al).value, d)
            <= At(BuildTree(program, digest, al).value[0].account.limit, d)
  {
    ProgramBound(s, program, digest, al, d);
    NothingCommitted(s, AccountId(program, digest, Execution), d);
  }

  ghost predicate NeverReservesOn(ops: seq<Op>, a: Id) {
    forall k :: 0 <= k < |ops| && ops[k].DoReserve? ==> ops[k].reserve.account != a
  }

  lemma StepAvoids(s: Ledger, op: Op, a: Id)
    requires AllLinked(s) && NoReservationOn(s, a) && (op.DoReserve? ==> op.reserve.account != a)
    ensures NoReservationOn(Step(s, op), a)
  {
    var t := Step(s, op);
    StepEvolves(s, op);
    forall id | id in t.reservations ensures t.reservations[id].account != a {
      if id in s.reservations {
        assert SameReservation(s.reservations[id], t.reservations[id]);
      } else {
        NewRow(s, op, id);
      }
    }
  }

  lemma StepKeepsTree(s: Ledger, op: Op, rows: seq<Row>)
    requires AllLinked(s) && HasTree(s, rows)
    ensures HasTree(Step(s, op), rows)
  {
  }

  /** The tree is there, and nothing is reserved on its root or on its execution account. */
  ghost predicate LeavesOnly(s: Ledger, rows: seq<Row>, root: Id, execution: Id) {
    && HasTree(s, rows) && root in s.accounts && s.accounts[root].kind == Root
    && NoReservationOn(s, root) && NoReservationOn(s, execution)
  }

  lemma {:induction false} RunKeepsLeavesOnly(s: Ledger, ops: seq<Op>, rows: seq<Row>, root: Id, execution: Id)
    requires Inv(s) && DisciplinedRun(s, ops) && LeavesOnly(s, rows, root, execution) && NeverReservesOn(ops, execution)
    ensures Inv(Run(s, ops)) && LeavesOnly(Run(s, ops), rows, root, execution)
    decreases |ops|
  {
    if |ops| > 0 {
      StepKeepsInv(s, ops[0]);
      StepKeepsTree(s, ops[0], rows);
      StepAvoidsRoot(s, ops[0], root);
      StepAvoids(s, ops[0], execution);
      StepEvolves(s, ops[0]);
      assert SameAccount(s.accounts[root], Step(s, ops[0]).accounts[root]);
      RunKeepsLeavesOnly(Step(s, ops[0]), ops[1..], rows, root, execution);
    }
  }

  /** So a disciplined run that never reserves on the execution account keeps the program within its root limit, late usage apart. */
  lemma RunWithinRootLimit(s: Ledger, ops: seq<Op>, program: Id, digest: string, al: Allocation, d: Dimension)
    requires Inv(s) && DisciplinedRun(s, ops) && BuildTree(program, digest, al).Success?
    requires LeavesOnly(s, BuildTree(program, digest, al).value, AccountId(program, digest, Root), AccountId(program, digest, Execution))
    requires NeverReservesOn(ops, AccountId(program, digest, Execution))
    ensures HasTree(Run(s, ops), BuildTree(program, digest, al).value)
    ensures NothingLate(Run(s, ops)) ==>
              ProgramCommitted(Run(s, ops), BuildTree(program, digest, al).value, d)
              <= At(BuildTree(program, digest, al).value[0].account.limit, d)
  {
    RunKeepsLeavesOnly(s, ops, BuildTree(program, digest, al).value, AccountId(program, digest, Root), AccountId(program, digest, Execution));
    if NothingLate(Run(s, ops)) {
      ProgramWithinRootLimit(Run(s, ops), program, digest, al, d);
    }
  }
}
