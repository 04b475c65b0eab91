# Big data table: a Dafny model

This project models the state machine behind the `big-datatable` widget. The widget shows a
paginated table whose rows come one page at a time from a service the caller supplies. The
model covers the `BigDatatable` class and the teardown of its shell, `BigDatatableComponent`:

- **Construction.** The constructor fills defaults into a loosely typed configuration record
  and into the column list:
  - an undefined column `state` becomes 1;
  - a missing `pagination_config` becomes `{delta: 5, max_page: 1, page: 1}`, and a falsy
    `delta` becomes 5;
  - the page-change callback is attached to the pagination and the post callback to the filter
    configuration;
  - the `pagination_top`, `pagination_bottom` and `is_filter` flags take a configured value
    only when it is truthy;
  - `filter_has_display_items` defaults to false and `display_items_name` to
    `"display_items"`;
  - `colspan` counts the columns, plus one when buttons are configured.
- **Page change.** `pageChange(p)` stores `p` as the current page, without checking it against
  `max_page`, and posts.
- **Post.** `postFilter` may first copy the filter's items-per-page field into `item_per_page`.
  This happens only when the value is above zero. It then sends `{filter, pagination}` and
  records one subscription per post.
- **Response.** A success replaces the rows and the pagination wholesale, re-attaches the
  callback and emits `"success"`. An error changes nothing and emits `"error"`.
- **Teardown.** Every recorded subscription is unsubscribed once.

Modules:

- `Js` (`js.dfy`): JavaScript values and the operations on them that the source uses.
  These are truthiness, `a || b`, `v > 0` and objects as string-keyed maps. A missing key
  reads as `undefined`. A thrown TypeError is the `TypeError` case of `Result`.
- `Framework` (`framework.dfy`): Angular's `EventEmitter`, reduced to the list of strings it
  has emitted. An RxJS `Subscription`, reduced to the number of `unsubscribe` calls it received.
- `TableConfig` (`table_config.dfy`): the configuration record and the value-level
  specification of each step. This means the column defaults, the resolved pagination, the
  normalised record and the item-per-page step, with their properties proved.
- `BigDatatableWidget` (`big_datatable.dfy`): the classes. Their fields are updated in place.
  `CheckStructure` rewrites the caller's column array in place with a loop. `Respond` clears
  `data` and pushes the response objects with a loop. The constructor, `CheckStructure`,
  `PageChange`, `PostFilter` and `Respond` are proved against the functions of `TableConfig`.
  `SetMessage` and `NgOnDestroy` are specified directly by the fields they change.
  `Valid()` is the invariant that construction establishes and every call keeps:
  - the subscriptions are pairwise distinct;
  - the pagination carries the page callback;
  - `is_filter` and `pagination_bottom` are truthy.

The service call is not executed. `PostFilter` returns the payload it hands to the service,
together with the fresh subscription the call returns. The service's answer is later passed to
`Respond` as `Success(pagination, objects)` or `Error`. The model returns `TypeError` in three
places:
- reading the items-per-page field when `filter_config`, its `property` or the named field is
  missing;
- posting when `_service_method` is not a function;
- emitting before `setMessage` has bound the output channel.

The source's usage comment (big-datatable.component.ts lines 12-74) differs from the code in
two places, and the model follows the code:

- Line 29 says the extra buttons column appears when buttons are given. The code at line 160
  adds it whenever `config.buttons` is truthy, so an empty buttons array counts too.
- Line 39 documents `is_filter: false` as the way to turn the filter off. The constructor
  copies the flag only when the configured value is truthy (line 147), so a configured `false`
  has no effect. The same holds for `pagination_bottom` (line 157). The model proves that both
  flags are always truthy.

Further facts about the code that the model states:

- A configured `display_items_name` of `""` is replaced by `"display_items"`, like a missing
  one (line 159).
- Teardown unsubscribes every entry but does not empty the `subscriptions` list (lines 87-91).
- The `delta` default is applied once, at construction (line 155). A pagination object that a
  successful response supplies is taken as it is, apart from the callback, so `delta` can be
  missing again.

## Model

| member | source | states |
|---|---|---|
| `TableConfig.CheckedStructure` | _widgets/big-datatable/big-datatable.component.ts:211-217 | Same length. Every column whose `state` is undefined gets `state == 1`. A column with a defined state (even 0, false or null) is returned unchanged. No other field of any column changes. |
| `TableConfig.CheckedStructureIdempotent` | _widgets/big-datatable/big-datatable.component.ts:211-217 | Checking the structure twice gives the same columns as checking it once. |
| `TableConfig.WithDefaultState` | _widgets/big-datatable/big-datatable.component.ts:213-215 | For one column: a defined state leaves the column as it is. An undefined one becomes 1, and every other field stays the same. |
| `TableConfig.WithPageCallback` | _widgets/big-datatable/big-datatable.component.ts:193-194 | The pagination object with `callback` set to the table's pageChange; every other key reads as before. |
| `TableConfig.ResolvedPagination` | _widgets/big-datatable/big-datatable.component.ts:125-155 | No supplied pagination gives exactly `{delta:5, max_page:1, page:1, callback}`. A supplied truthy `delta` is kept and a falsy one becomes 5. Every other supplied key passes through. The callback is attached, and `delta` is always truthy. |
| `TableConfig.ResolvedPaginationIdempotent` | _widgets/big-datatable/big-datatable.component.ts:140-155 | Resolving an already resolved pagination object returns it unchanged. |
| `TableConfig.NormalizedConfig` | _widgets/big-datatable/big-datatable.component.ts:139-159 | The record after construction: pagination resolved and filter callback attached. A falsy `filter_has_display_items` becomes `false` and a truthy one is kept. An empty `display_items_name` becomes `"display_items"` and a given one is kept. Every other field is unchanged. |
| `TableConfig.NormalizedConfigIdempotent` | _widgets/big-datatable/big-datatable.component.ts:139-159 | The constructor writes its defaults back into the caller's record. So a second table built over that record leaves it unchanged. |
| `TableConfig.DisplayItemsValue` | _widgets/big-datatable/big-datatable.component.ts:185-186 | `filter_config.property[name].value` succeeds exactly when the filter configuration, its `property` map and the named field all exist. It then yields that field's `value`; otherwise it throws. |
| `TableConfig.ApplyDisplayItems` | _widgets/big-datatable/big-datatable.component.ts:183-188 | With `filter_has_display_items` falsy, the pagination is returned untouched. Otherwise it throws exactly when the field lookup throws. `item_per_page` becomes the field's value when that value is above zero and is unchanged otherwise. No other key changes. |
| `Js.Truthy` | _widgets/big-datatable/big-datatable.component.ts:140-163 | JavaScript truthiness as the `if (x)` and `!x` tests use it: a value is falsy exactly when it is `undefined`, `null`, `false`, `0` or `""`. |
| `Js.Or` | _widgets/big-datatable/big-datatable.component.ts:147-163 | The `if (x) this.f = x` override and the `if (!x) x = d` default: the result is truthy exactly when the configured value or the default is. |
| `Js.Callable` | _widgets/big-datatable/big-datatable.component.ts:190 | True exactly for function values: the table's own methods and the caller's functions. `.apply` on any other value throws a TypeError. A callable value is truthy. |
| `Js.Get` | _widgets/big-datatable/big-datatable.component.ts:140-213 | A key the object holds reads as its value. Any other key reads as `undefined`, which is falsy. |
| `Js.GreaterThanZero` | _widgets/big-datatable/big-datatable.component.ts:185 | JavaScript's `v > 0` on the model's values; a value above zero is truthy. |
| `BigDatatableWidget.BigDatatable.constructor` | _widgets/big-datatable/big-datatable.component.ts:131-167 | Establishes `Valid()`. The caller's column array becomes `CheckedStructure` of its old contents, and the stored record is `NormalizedConfig` of the given one. `pagination_config` is `ResolvedPagination`. `pagination_top` is the configured value when truthy, else false. `pagination_bottom` and `is_filter` are the configured value when truthy, else true. `colspan` is the number of columns plus one exactly when `buttons` is truthy. The rows and subscriptions start empty and no output channel is bound. |
| `BigDatatableWidget.BigDatatable.CheckStructure` | _widgets/big-datatable/big-datatable.component.ts:211-217 | The column array, updated in place, equals `CheckedStructure` of its old contents. |
| `BigDatatableWidget.BigDatatable.PageChange` | _widgets/big-datatable/big-datatable.component.ts:173-176 | `page` becomes `p` with no bound check, even when the post then throws. The pagination then becomes `ApplyDisplayItems` of the old one with that page. A failed lookup throws with `page` as the only change. A post that goes out carries `{filter_config, pagination_config}` with `page == p`, and appends exactly one fresh subscription that has not been unsubscribed. |
| `BigDatatableWidget.BigDatatable.PostFilter` | _widgets/big-datatable/big-datatable.component.ts:181-205 | The pagination becomes `ApplyDisplayItems` of the old one. A failed lookup throws with nothing changed. A non-callable service method throws after the item-per-page write, with no subscription recorded. Otherwise the payload is `{filter_config, pagination_config}` and exactly one fresh subscription is appended. Only the pagination and the subscription list can change. |
| `BigDatatableWidget.BigDatatable.Respond` | _widgets/big-datatable/big-datatable.component.ts:190-203 | On success, `data` equals the response objects in order, with nothing left from the previous page. `pagination_config` is the response pagination with the callback re-attached. On error, both are unchanged. Exactly one `"success"` or `"error"` is emitted, or a TypeError when no channel is bound. `Valid()` is kept. |
| `BigDatatableWidget.BigDatatable.SetMessage` | _widgets/big-datatable/big-datatable.component.ts:219-221 | Binds the output channel and changes nothing else. |
| `BigDatatableWidget.BigDatatableComponent.constructor` | _widgets/big-datatable/big-datatable.component.ts:78-81 | The shell holds its table and a fresh output channel that has emitted nothing. |
| `BigDatatableWidget.BigDatatableComponent.NgOnDestroy` | _widgets/big-datatable/big-datatable.component.ts:87-91 | Every recorded subscription receives exactly one more `unsubscribe` call, and nothing else is modified. |

## Left out

- Angular machinery is not modelled. This covers the `@Component` decorator, `@Output`,
  `ngOnInit` (which only calls `setMessage`), the HTML template and the CSS. It is framework
  wiring.
- `new Filter(this.scope, this.filter_config)` is not modelled, so there is no `filter` field.
  The Filter component is not part of this model. Its edits to the shared filter configuration
  appear as assignments to the public `filterConfig` field.
- `scope` (the table itself) is not modelled, and `parent_scope` is kept only as an opaque
  value. They matter only to button actions and the Filter component.
- The service call itself is not modelled. It is foreign, asynchronous code. A service method
  that throws before returning an observable is not modelled either, and neither is the
  receiver that `apply` binds.
- Asynchronous interleaving is not modelled: each `Respond` call runs to completion before the
  next call. `Respond` is not tied to a pending post, so any response may be passed at any time,
  including one that answers no post or answers an older one; which post a response answers is
  not recorded.
- The `this` binding of detached callbacks is not modelled. `pagination_config.callback` and
  `filter_config.callback` are markers, and the model calls `PageChange` and `PostFilter` as
  methods of the table.
- Aliasing is not modelled. In the source, `config.pagination_config` and `pagination_config`
  are one object until the first successful response. The model's `config` keeps the
  pagination as construction left it. Later writes of `page` and `item_per_page` are not
  mirrored into it. Nothing in the core reads it again.
- Columns are values in the caller's array, so aliasing of individual column objects is not
  modelled.
- Numbers are integers: NaN, fractions and `-0` are not modelled.
- `Js.GreaterThanZero`: every string is treated as not greater than zero. JavaScript would
  compare a numeric string such as `"10"` by its numeric value. An opaque `ObjectRef` is taken
  to be a plain object, so an array such as `[5]` or a Date, which JavaScript converts to a
  number above zero, is treated as not greater than zero. The widget's items-per-page field
  holds a number.
- TypeErrors that the typed model cannot reach are not modelled: an undefined `config`
  (line 140), an undefined `structure` or a `null` column (lines 212-213), a `null`
  `property[name]` (line 185), a service method whose result has no `subscribe` (line 190) and
  a response without `pagination` (line 194). `Config`, `array<Obj>`, `map<string, Obj>` and
  `Response` exclude these inputs.
- The configuration and the response are typed, so a truthy non-object `pagination_config`
  cannot be expressed. Neither can a response whose `pagination` is not an object or whose
  `objects` is not iterable.
- The allowed column sizes and the buttons column's 7% width are not modelled. They appear
  only in a comment and no code checks them.
- Button actions and cell rendering modes 2 and 3 are not modelled. They belong to the render
  layer.
