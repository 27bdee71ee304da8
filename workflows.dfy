/** Workflows and runs: resolving the stored task-id text into task templates,
    fetching the task at one position, checking which of a run's products carry
    the current task's input, and the field-name normaliser shared by the
    field templates. */
module Workflows {
  import opened Results
  import Text
  import opened Catalog

  /** The exceptions the task helpers let escape: `ValueError` from `int()` on a
      malformed id list, `IndexError` from an index past the end of the list. */
  datatype Error = BadLiteral(cause: Text.ValueError) | IndexOutOfRange(index: nat, length: nat)

  type TaskList = seq<Option<TaskTemplate>>

  /** What `get_tasks` promises for the comma-separated id text `text`: nothing
      for empty text; otherwise the `ValueError` of the first malformed id, or
      one entry per listed id, in list order, holding the template with that id
      or `None`. */
  predicate IsOrderedResolution(text: string, table: Table, r: Result<TaskList, Error>) {
    if text == "" then r == Ok([])
    else match ParseIdList(text)
      case Err(e) => r == Err(BadLiteral(e))
      case Ok(ids) =>
        && r.Ok? && |r.value| == |ids|
        && forall i :: 0 <= i < |ids| ==> r.value[i] == FindById(table, ids[i])
  }

  /** What `get_task_at_index` promises: `None` for empty text; for a
      well-formed list and an index inside it, the template whose id is listed
      there, or `None` when no template has that id; an error otherwise. */
  predicate IsTaskAt(text: string, index: nat, table: Table, r: Result<Option<TaskTemplate>, Error>) {
    && (r.Err? <==> text != "" && (ParseIdList(text).Err? || index >= |ParseIdList(text).value|))
    && (r.Err? && ParseIdList(text).Err? ==> r.error == BadLiteral(ParseIdList(text).error))
    && (r.Err? && ParseIdList(text).Ok? ==> r.error == IndexOutOfRange(index, |ParseIdList(text).value|))
    && (r.Ok? && r.value.Some? ==>
          && text != "" && ParseIdList(text).Ok? && index < |ParseIdList(text).value|
          && r.value.value in table && r.value.value.id == ParseIdList(text).value[index])
    && (r == Ok(None) <==>
          || text == ""
          || (&& ParseIdList(text).Ok? && index < |ParseIdList(text).value|
              && forall t :: t in table ==> t.id != ParseIdList(text).value[index]))
  }

  /** A workflow: a name and its task-template ids as comma-separated text. */
  datatype Workflow = Workflow(name: string, order: string) {

    /** `Workflow.get_tasks`. */
    method GetTasks(table: Table) returns (r: Result<TaskList, Error>)
      ensures IsOrderedResolution(order, table, r)
    {
      if order == "" {
        return Ok([]);
      }
      match ParseIdList(order) {
        case Err(e) =>
          return Err(BadLiteral(e));
        case Ok(ids) =>
          var ordered := ResolveIds(ids, table);
          return Ok(ordered);
      }
    }

    /** `Workflow.get_task_at_index` for a non-negative index. */
    function GetTaskAtIndex(index: nat, table: Table): (r: Result<Option<TaskTemplate>, Error>)
      ensures IsTaskAt(order, index, table, r)
    {
      if order == "" then Ok(None)
      else match ParseIdList(order)
        case Err(e) => Err(BadLiteral(e))
        case Ok(ids) =>
          if index < |ids| then Ok(FindById(table, ids[index]))
          else Err(IndexOutOfRange(index, |ids|))
    }
  }

  /** An inventory item linked to a product; `itemType` is its `ItemType` id. */
  datatype InventoryItem = InventoryItem(id: int, itemType: int)

  /** A product with the inventory items linked to it. */
  datatype Product = Product(id: int, linkedInventory: seq<InventoryItem>)

  /** `p.linked_inventory.filter(item_type=itemType).count()`. */
  function CountOfType(items: seq<InventoryItem>, itemType: int): (n: nat)
    ensures n <= |items|
  {
    if items == [] then 0
    else CountOfType(items[..|items| - 1], itemType) + (if items[|items| - 1].itemType == itemType then 1 else 0)
  }

  /** The count is positive exactly when some linked item has the type. */
  lemma {:induction false} CountPositiveIffLinked(items: seq<InventoryItem>, itemType: int)
    ensures CountOfType(items, itemType) > 0 <==> exists i :: 0 <= i < |items| && items[i].itemType == itemType
  {
    if items != [] {
      var front := items[..|items| - 1];
      CountPositiveIffLinked(front, itemType);
      if exists i :: 0 <= i < |front| && front[i].itemType == itemType {
        var i :| 0 <= i < |front| && front[i].itemType == itemType;
        assert items[i] == front[i];
      }
      if exists i :: 0 <= i < |items| && items[i].itemType == itemType {
        var i :| 0 <= i < |items| && items[i].itemType == itemType;
        if i < |front| {
          assert front[i] == items[i];
        }
      }
    }
  }

  /** The readiness test applied to one product. */
  predicate HasInputOfType(p: Product, itemType: int) {
    CountOfType(p.linkedInventory, itemType) > 0
  }

  /** The ids of a list of products. */
  function ProductIds(products: seq<Product>): set<int> {
    set p | p in products :: p.id
  }

  /** Rows of one table: equal ids mean the same product. */
  predicate IdsDetermineProducts(products: seq<Product>) {
    forall i, j :: 0 <= i < |products| && 0 <= j < |products| && products[i].id == products[j].id ==>
      products[i] == products[j]
  }

  /** The map `has_valid_inputs` fills: products visited in order, each setting
      its own id to whether it carries the input type. */
  function ReadinessMap(products: seq<Product>, itemType: int): (m: map<int, bool>)
    ensures m.Keys == ProductIds(products)
  {
    if products == [] then map[]
    else
      var front := products[..|products| - 1];
      var p := products[|products| - 1];
      assert ProductIds(products) == ProductIds(front) + {p.id} by {
        assert products == front + [p];
      }
      ReadinessMap(front, itemType)[p.id := HasInputOfType(p, itemType)]
  }

  /** Each product's entry tells whether it has a linked item of the input type. */
  lemma {:induction false} ReadinessOfProduct(products: seq<Product>, itemType: int, p: Product)
    requires IdsDetermineProducts(products) && p in products
    ensures ReadinessMap(products, itemType)[p.id] ==
      exists i :: 0 <= i < |p.linkedInventory| && p.linkedInventory[i].itemType == itemType
  {
    CountPositiveIffLinked(p.linkedInventory, itemType);
    var front := products[..|products| - 1];
    var last := products[|products| - 1];
    if last.id != p.id {
      assert p in front by {
        var k :| 0 <= k < |products| && products[k] == p;
        assert k != |products| - 1;
        assert front[k] == p;
      }
      assert IdsDetermineProducts(front) by {
        forall i, j | 0 <= i < |front| && 0 <= j < |front| && front[i].id == front[j].id
          ensures front[i] == front[j]
        {
          assert front[i] == products[i] && front[j] == products[j];
        }
      }
      ReadinessOfProduct(front, itemType, p);
    } else {
      var k :| 0 <= k < |products| && products[k] == p;
      assert last == p;
    }
  }

  /** With ids that determine products, every product's entry is the readiness
      test applied to that product. */
  lemma ReadinessOfEveryProduct(products: seq<Product>, itemType: int)
    requires IdsDetermineProducts(products)
    ensures forall p :: p in products ==> ReadinessMap(products, itemType)[p.id] == HasInputOfType(p, itemType)
  {
    forall p | p in products ensures ReadinessMap(products, itemType)[p.id] == HasInputOfType(p, itemType) {
      ReadinessOfProduct(products, itemType, p);
      CountPositiveIffLinked(p.linkedInventory, itemType);
    }
  }

  /** The loop of `has_valid_inputs` over the run's products, setting each
      product's id to whether it has a linked item of the input type. */
  method CollectReadiness(products: seq<Product>, itemType: int) returns (valid: map<int, bool>)
    ensures valid == ReadinessMap(products, itemType)
    ensures valid.Keys == ProductIds(products)
  {
    valid := map[];
    for k := 0 to |products|
      invariant valid == ReadinessMap(products[..k], itemType)
    {
      var p := products[k];
      assert products[..k + 1][..k] == products[..k];
      if CountOfType(p.linkedInventory, itemType) > 0 {
        valid := valid[p.id := true];
      } else {
        valid := valid[p.id := false];
      }
    }
    assert products[..|products|] == products;
  }

  /** Two products, the first carrying an item of the input type 5 and the
      second only an item of another type, map to true and false. */
  lemma ReadinessOfTwoProducts()
    ensures ReadinessMap([Product(1, [InventoryItem(10, 5)]), Product(2, [InventoryItem(11, 6)])], 5) ==
      map[1 := true, 2 := false]
  {
    var a := Product(1, [InventoryItem(10, 5)]);
    var b := Product(2, [InventoryItem(11, 6)]);
    assert [a.linkedInventory[0]][..0] == [] && [b.linkedInventory[0]][..0] == [];
    assert HasInputOfType(a, 5) && !HasInputOfType(b, 5);
    assert [a, b][..1] == [a] && [a][..0] == [];
  }

  /** What `has_valid_inputs` returns when a task exists. */
  datatype Readiness = NoTask | PerProduct(valid: map<int, bool>)

  /** A run: the task-id text it works through, the index of its current task
      and the products attached to it. */
  datatype Run = Run(name: string, tasks: string, currentTask: nat, products: seq<Product>) {

    /** `Run.get_task_list`: no guard for empty text, so `""` raises. */
    function GetTaskList(): (r: Result<seq<int>, Error>)
      ensures tasks == "" ==> r == Err(BadLiteral(Text.InvalidLiteral("")))
      ensures r.Ok? ==> |r.value| == |Text.Split(tasks, ',')|
      ensures r.Ok? ==> forall i :: 0 <= i < |r.value| ==> Text.ParseInt(Text.Split(tasks, ',')[i]) == Ok(r.value[i])
      ensures forall ids :: |ids| > 0 && tasks == FormatIdList(ids) ==> r == Ok(ids)
      ensures r.Err? ==> exists k :: r.error.BadLiteral? && FirstBadPiece(Text.Split(tasks, ','), k, r.error.cause)
    {
      EmptyIdListFails();
      forall ids | |ids| > 0 && tasks == FormatIdList(ids) ensures ParseIdList(tasks) == Ok(ids) {
        ParseFormattedIdList(ids);
      }
      match ParseIdList(tasks)
      case Err(e) => Err(BadLiteral(e))
      case Ok(ids) => Ok(ids)
    }

    /** `Run.get_tasks`. */
    method GetTasks(table: Table) returns (r: Result<TaskList, Error>)
      ensures IsOrderedResolution(tasks, table, r)
    {
      if tasks == "" {
        return Ok([]);
      }
      match ParseIdList(tasks) {
        case Err(e) =>
          return Err(BadLiteral(e));
        case Ok(ids) =>
          var ordered := ResolveIds(ids, table);
          return Ok(ordered);
      }
    }

    /** `Run.get_task_at_index` for a non-negative index. */
    function GetTaskAtIndex(index: nat, table: Table): (r: Result<Option<TaskTemplate>, Error>)
      ensures IsTaskAt(tasks, index, table, r)
    {
      if tasks == "" then Ok(None)
      else match ParseIdList(tasks)
        case Err(e) => Err(BadLiteral(e))
        case Ok(ids) =>
          if index < |ids| then Ok(FindById(table, ids[index]))
          else Err(IndexOutOfRange(index, |ids|))
    }

    /** `Run.has_valid_inputs`: `NoTask` (the source's `False`) when there is no
        template at the current index; otherwise a map from every product id to
        whether that product has a linked item of the task's input type. */
    method HasValidInputs(table: Table) returns (r: Result<Readiness, Error>)
      ensures var found := GetTaskAtIndex(currentTask, table);
        found.Err? ==> r == Err(found.error)
      ensures GetTaskAtIndex(currentTask, table) == Ok(None) ==> r == Ok(NoTask)
      ensures var found := GetTaskAtIndex(currentTask, table);
        found.Ok? && found.value.Some? ==>
        var task := found.value.value;
        && r.Ok? && r.value.PerProduct?
        && r.value.valid == ReadinessMap(products, task.productInput)
        && r.value.valid.Keys == ProductIds(products)
        && (IdsDetermineProducts(products) ==> forall p :: p in products ==>
              r.value.valid[p.id] == HasInputOfType(p, task.productInput))
    {
      var found := GetTaskAtIndex(currentTask, table);
      if found.Err? {
        return Err(found.error);
      }
      if found.value.None? {
        return Ok(NoTask);
      }
      var task := found.value.value;
      var valid := CollectReadiness(products, task.productInput);
      if IdsDetermineProducts(products) {
        ReadinessOfEveryProduct(products, task.productInput);
      }
      return Ok(PerProduct(valid));
    }
  }

  /** `get_task_at_index(i)` agrees with entry `i` of `get_tasks()` inside the
      list, and fails past its end. */
  lemma TaskAtAgreesWithResolution(text: string, table: Table, index: nat,
                                   all: Result<TaskList, Error>, one: Result<Option<TaskTemplate>, Error>)
    requires IsOrderedResolution(text, table, all) && IsTaskAt(text, index, table, one)
    requires text != "" && all.Ok? && Keyed(table)
    ensures index < |all.value| ==> one == Ok(all.value[index])
    ensures index >= |all.value| ==> one.Err?
  {
    var ids := ParseIdList(text).value;
    if index < |ids| {
      var t := FindById(table, ids[index]);
      if t.Some? {
        var u := one.value.value;
        FindKeyedRow(table, u);
      }
    }
  }

  /** `label.lower().replace(' ', '_')`, the `field_name` of every field template. */
  function FieldName(caption: string): (name: string)
    ensures |name| == |caption|
    ensures forall i :: 0 <= i < |caption| ==>
      name[i] == (if caption[i] == ' ' then '_' else Text.LowerChar(caption[i]))
  {
    Text.ReplaceCharPointwise(Text.Lower(caption), ' ', '_');
    Text.ReplaceAll(Text.Lower(caption), " ", "_")
  }

  /** A field name has no space and no upper-case ASCII letter, and normalising
      it again changes nothing. */
  lemma FieldNameNormal(caption: string)
    ensures ' ' !in FieldName(caption)
    ensures forall i :: 0 <= i < |FieldName(caption)| ==> !('A' <= FieldName(caption)[i] <= 'Z')
    ensures FieldName(FieldName(caption)) == FieldName(caption)
  {
    var name := FieldName(caption);
    assert forall i :: 0 <= i < |name| ==> name[i] != ' ';
  }
}
