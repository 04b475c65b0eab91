/**
 * The value-level specification of the big data table: the configuration
 * record, the defaults the constructor fills in, and the item-per-page step
 * that precedes every post. The class in module BigDatatableWidget is proved
 * against these functions.
 */
module TableConfig {
  import opened Js

  /** Column state 1: the cell shows its text as is. */
  const PlainState: int := 1
  const DefaultDelta: int := 5
  const DefaultDisplayItemsName: string := "display_items"

  /** The pagination used when the caller supplies none. */
  const DefaultPagination: Obj := map["delta" := Num(5), "max_page" := Num(1), "page" := Num(1)]

  /**
   * The filter configuration, shared with the Filter collaborator. The table
   * only reads `property[name].value` and writes `callback`.
   */
  datatype FilterConfig = FilterConfig(property: Option<map<string, Obj>>, callback: Value)

  /**
   * The caller's configuration record. A missing or falsy `pagination_config`
   * or `filter_config` is `None`; a missing `display_items_name` is "".
   */
  datatype Config = Config(
    paginationConfig: Option<Obj>,
    filterConfig: Option<FilterConfig>,
    isFilter: Value,
    service: Value,
    serviceMethod: Value,
    filterHasDisplayItems: Value,
    displayItemsName: string,
    buttons: Value)

  // ---------------------------------------------------------------------
  // Columns
  // ---------------------------------------------------------------------

  /** One column after checkStructure: an undefined `state` becomes 1. */
  function WithDefaultState(column: Obj): (r: Obj)
    ensures Get(column, "state") != Undefined ==> r == column
    ensures Get(column, "state") == Undefined ==> Get(r, "state") == Num(PlainState)
    ensures forall k :: k != "state" ==> Get(r, k) == Get(column, k)
  {
    if Get(column, "state") == Undefined then column["state" := Num(PlainState)] else column
  }

  /** The column list after checkStructure, built up in the order the loop visits it. */
  function CheckedStructure(columns: seq<Obj>): (r: seq<Obj>)
    ensures |r| == |columns|
    ensures forall i :: 0 <= i < |columns| && Get(columns[i], "state") != Undefined ==> r[i] == columns[i]
    ensures forall i :: 0 <= i < |columns| && Get(columns[i], "state") == Undefined ==>
              Get(r[i], "state") == Num(PlainState)
    ensures forall i, k :: 0 <= i < |columns| && k != "state" ==> Get(r[i], k) == Get(columns[i], k)
  {
    if columns == [] then []
    else CheckedStructure(columns[..|columns| - 1]) + [WithDefaultState(columns[|columns| - 1])]
  }

  /**
   * Every column has a defined state after one pass, so a second pass changes
   * nothing; this follows from the contract of CheckedStructure.
   */
  lemma CheckedStructureIdempotent(columns: seq<Obj>)
    ensures CheckedStructure(CheckedStructure(columns)) == CheckedStructure(columns)
  {
  }

  // ---------------------------------------------------------------------
  // Pagination
  // ---------------------------------------------------------------------

  /** A pagination object with the table's pageChange attached as its callback. */
  function WithPageCallback(pagination: Obj): (r: Obj)
    ensures Get(r, "callback") == TableMethod(PageChangeHandler)
    ensures forall k :: k != "callback" ==> Get(r, k) == Get(pagination, k)
  {
    pagination["callback" := TableMethod(PageChangeHandler)]
  }

  /**
   * The pagination the constructor settles on: the supplied object or the
   * default one, with the callback attached and a falsy `delta` set to 5.
   */
  function ResolvedPagination(supplied: Option<Obj>): (r: Obj)
    ensures Get(r, "callback") == TableMethod(PageChangeHandler)
    ensures Truthy(Get(r, "delta"))
    ensures supplied.None? ==>
              r == map["delta" := Num(5), "max_page" := Num(1), "page" := Num(1),
                       "callback" := TableMethod(PageChangeHandler)]
    ensures supplied.Some? && Truthy(Get(supplied.value, "delta")) ==>
              Get(r, "delta") == Get(supplied.value, "delta")
    ensures supplied.Some? && !Truthy(Get(supplied.value, "delta")) ==> Get(r, "delta") == Num(DefaultDelta)
    ensures supplied.Some? ==>
              forall k :: k != "delta" && k != "callback" ==> Get(r, k) == Get(supplied.value, k)
  {
    var pagination := if supplied.Some? then supplied.value else DefaultPagination;
    var attached := WithPageCallback(pagination);
    if Truthy(Get(attached, "delta")) then attached else attached["delta" := Num(DefaultDelta)]
  }

  /**
   * Resolving an already resolved pagination object gives it back unchanged:
   * it carries the callback and a truthy delta already.
   */
  lemma ResolvedPaginationIdempotent(supplied: Option<Obj>)
    ensures ResolvedPagination(Some(ResolvedPagination(supplied))) == ResolvedPagination(supplied)
  {
  }

  // ---------------------------------------------------------------------
  // The configuration record
  // ---------------------------------------------------------------------

  /**
   * The configuration record as the constructor leaves it: pagination
   * resolved, the filter callback attached, falsy `filter_has_display_items`
   * set to false and a missing `display_items_name` set to "display_items".
   */
  function NormalizedConfig(config: Config): (r: Config)
    ensures r.paginationConfig == Some(ResolvedPagination(config.paginationConfig))
    ensures config.filterConfig.None? ==> r.filterConfig.None?
    ensures config.filterConfig.Some? ==>
              r.filterConfig == Some(config.filterConfig.value.(callback := TableMethod(PostFilterHandler)))
    ensures Truthy(config.filterHasDisplayItems) ==> r.filterHasDisplayItems == config.filterHasDisplayItems
    ensures !Truthy(config.filterHasDisplayItems) ==> r.filterHasDisplayItems == Bool(false)
    ensures r.displayItemsName != ""
    ensures config.displayItemsName != "" ==> r.displayItemsName == config.displayItemsName
    ensures config.displayItemsName == "" ==> r.displayItemsName == DefaultDisplayItemsName
    ensures r.isFilter == config.isFilter && r.buttons == config.buttons
    ensures r.service == config.service && r.serviceMethod == config.serviceMethod
  {
    var filter := match config.filterConfig
      case None => None
      case Some(f) => Some(f.(callback := TableMethod(PostFilterHandler)));
    config.(
      paginationConfig := Some(ResolvedPagination(config.paginationConfig)),
      filterConfig := filter,
      filterHasDisplayItems := Or(config.filterHasDisplayItems, Bool(false)),
      displayItemsName := if config.displayItemsName == "" then DefaultDisplayItemsName else config.displayItemsName)
  }

  /**
   * The constructor writes its defaults back into the caller's record, so a
   * second table built over the same record finds nothing left to change.
   */
  lemma NormalizedConfigIdempotent(config: Config)
    ensures NormalizedConfig(NormalizedConfig(config)) == NormalizedConfig(config)
  {
    ResolvedPaginationIdempotent(config.paginationConfig);
  }

  // ---------------------------------------------------------------------
  // The item-per-page step of postFilter
  // ---------------------------------------------------------------------

  /** `filter_config.property[name].value`, which throws when a link in the chain is missing. */
  function DisplayItemsValue(filter: Option<FilterConfig>, name: string): (r: Result<Value>)
    ensures r.Ok? <==> filter.Some? && filter.value.property.Some? && name in filter.value.property.value
    ensures r.Ok? ==> r.value == Get(filter.value.property.value[name], "value")
  {
    match filter
    case None => TypeError
    case Some(f) =>
      match f.property
      case None => TypeError
      case Some(fields) => if name in fields then Ok(Get(fields[name], "value")) else TypeError
  }

  /**
   * The pagination object postFilter sends: when the filter carries the
   * number of items per page and that number is above zero, it replaces
   * `item_per_page`; nothing else is touched.
   */
  function ApplyDisplayItems(config: Config, filter: Option<FilterConfig>, pagination: Obj): (r: Result<Obj>)
    ensures !Truthy(config.filterHasDisplayItems) ==> r == Ok(pagination)
    ensures Truthy(config.filterHasDisplayItems) ==>
              (r.TypeError? <==> DisplayItemsValue(filter, config.displayItemsName).TypeError?)
    ensures r.Ok? ==> forall k :: k != "item_per_page" ==> Get(r.value, k) == Get(pagination, k)
    ensures r.Ok? && Truthy(config.filterHasDisplayItems) ==>
              var v := DisplayItemsValue(filter, config.displayItemsName).value;
              Get(r.value, "item_per_page") == (if GreaterThanZero(v) then v else Get(pagination, "item_per_page"))
  {
    if !Truthy(config.filterHasDisplayItems) then Ok(pagination)
    else
      match DisplayItemsValue(filter, config.displayItemsName)
      case TypeError => TypeError
      case Ok(v) => if GreaterThanZero(v) then Ok(pagination["item_per_page" := v]) else Ok(pagination)
  }
}
