/**
 * The big data table: a paginated table whose rows are fetched one page at
 * a time through a caller-supplied service. `BigDatatable` holds the
 * configuration, the current page of rows and the bookkeeping of the posts;
 * `BigDatatableComponent` is the shell that releases the subscriptions on
 * teardown.
 *
 * The service is not called here: `PostFilter` returns the payload it would
 * send, together with the subscription the call hands back, and the caller
 * later passes the service's answer to `Respond`.
 */
module BigDatatableWidget {
  import opened Js
  import opened TableConfig
  import opened Framework

  /** What postFilter hands to the service: `{filter, pagination}`. */
  datatype Payload = Payload(filter: Option<FilterConfig>, pagination: Obj)

  /** A post that went out, and the subscription that was recorded for it. */
  datatype Post = Post(payload: Payload, subscription: Subscription)

  /** The service's answer to a post. */
  datatype Response = Success(pagination: Obj, objects: seq<Value>) | Error

  class BigDatatable {
    var subscriptions: seq<Subscription>
    var colspan: int
    var parentScope: Value
    var config: Config

    var paginationConfig: Obj
    var paginationTop: Value
    var paginationBottom: Value

    var filterConfig: Option<FilterConfig>
    var isFilter: Value

    var structure: array<Obj>
    var data: seq<Value>
    var buttons: Value

    var service: Value
    var serviceMethod: Value

    var message: EventEmitter?

    /**
     * What construction establishes and every later call keeps: each post
     * recorded its own subscription, the pagination object carries the page
     * callback, and the flags that only a truthy value can override stay on.
     */
    ghost predicate Valid()
      reads this
    {
      && (forall i, j :: 0 <= i < j < |subscriptions| ==> subscriptions[i] != subscriptions[j])
      && Get(paginationConfig, "callback") == TableMethod(PageChangeHandler)
      && Truthy(isFilter)
      && Truthy(paginationBottom)
    }

    constructor (config: Config, structure: array<Obj>, scope: Value)
      modifies structure
      ensures Valid()
      ensures this.structure == structure
      ensures structure[..] == CheckedStructure(old(structure[..]))
      ensures this.config == NormalizedConfig(config)
      ensures paginationConfig == ResolvedPagination(config.paginationConfig)
      ensures paginationTop == Or(Get(paginationConfig, "pagination_top"), Bool(false))
      ensures paginationBottom == Or(Get(paginationConfig, "pagination_bottom"), Bool(true))
      ensures filterConfig == this.config.filterConfig
      ensures isFilter == Or(config.isFilter, Bool(true))
      ensures colspan == structure.Length + (if Truthy(config.buttons) then 1 else 0)
      ensures buttons == Or(config.buttons, Undefined)
      ensures service == config.service && serviceMethod == config.serviceMethod
      ensures data == [] && subscriptions == [] && message == null && parentScope == scope
    {
      this.structure := structure;

      // The record as the constructor rewrites it (defaults written back into
      // the caller's record), and the pagination object it shares with
      // config.pagination_config.
      var cfg := NormalizedConfig(config);
      var pagination := cfg.paginationConfig.value;
      var filter := cfg.filterConfig;
      var filterOn := Or(cfg.isFilter, Bool(true));
      var top := Or(Get(pagination, "pagination_top"), Bool(false));
      var bottom := Or(Get(pagination, "pagination_bottom"), Bool(true));
      var shown := Or(cfg.buttons, Undefined);

      this.config := cfg;
      parentScope := scope;
      subscriptions := [];
      data := [];
      paginationConfig := pagination;
      paginationTop := top;
      paginationBottom := bottom;
      filterConfig := filter;
      isFilter := filterOn;
      service := cfg.service;
      serviceMethod := cfg.serviceMethod;
      colspan := structure.Length + (if Truthy(cfg.buttons) then 1 else 0);
      buttons := shown;
      message := null;
      new;
      CheckStructure();
    }

    /** Gives every column whose state is undefined the plain state 1, in place. */
    method CheckStructure()
      modifies structure
      ensures structure[..] == CheckedStructure(old(structure[..]))
    {
      var i := 0;
      while i < structure.Length
        invariant 0 <= i <= structure.Length
        invariant structure[..i] == CheckedStructure(old(structure[..i]))
        invariant forall k :: i <= k < structure.Length ==> structure[k] == old(structure[k])
      {
        ghost var done := structure[..i];
        if Get(structure[i], "state") == Undefined {
          structure[i] := structure[i]["state" := Num(PlainState)];
        }
        assert structure[..i + 1] == done + [WithDefaultState(old(structure[i]))];
        assert old(structure[..i + 1])[..i] == old(structure[..i]);
        i := i + 1;
      }
      assert structure[..] == structure[..i];
      assert old(structure[..]) == old(structure[..i]);
    }

    /** The pagination's callback: go to `page`, unchecked against max_page, and post. */
    method PageChange(page: int) returns (r: Result<Post>)
      requires Valid()
      modifies this`paginationConfig, this`subscriptions
      ensures Valid()
      ensures Get(paginationConfig, "page") == Num(page)
      ensures var step := ApplyDisplayItems(config, filterConfig, old(paginationConfig)["page" := Num(page)]);
              && (step.Ok? ==> paginationConfig == step.value)
              && (step.TypeError? ==> paginationConfig == old(paginationConfig)["page" := Num(page)])
              && (r.Ok? <==> step.Ok? && Callable(serviceMethod))
      ensures r.Ok? ==> Get(r.value.payload.pagination, "page") == Num(page)
      ensures r.Ok? ==> r.value.payload == Payload(filterConfig, paginationConfig)
      ensures r.Ok? ==> r.value.subscription.unsubscribeCalls == 0
      ensures r.Ok? ==> fresh(r.value.subscription) && subscriptions == old(subscriptions) + [r.value.subscription]
      ensures r.TypeError? ==> subscriptions == old(subscriptions)
    {
      paginationConfig := paginationConfig["page" := Num(page)];
      r := PostFilter();
    }

    /**
     * Posts the filter and the pagination. When the filter holds a number of
     * items per page above zero, it first becomes `item_per_page`. Every post
     * that reaches the service records one new subscription.
     */
    method PostFilter() returns (r: Result<Post>)
      requires Valid()
      modifies this`paginationConfig, this`subscriptions
      ensures Valid()
      ensures var step := ApplyDisplayItems(config, filterConfig, old(paginationConfig));
              && (step.TypeError? ==>
                    r.TypeError? && paginationConfig == old(paginationConfig) && subscriptions == old(subscriptions))
              && (step.Ok? ==> paginationConfig == step.value)
              && (step.Ok? && !Callable(serviceMethod) ==> r.TypeError? && subscriptions == old(subscriptions))
              && (step.Ok? && Callable(serviceMethod) ==> r.Ok?)
      ensures r.Ok? ==> r.value.payload == Payload(filterConfig, paginationConfig)
      ensures r.Ok? ==> fresh(r.value.subscription) && r.value.subscription.unsubscribeCalls == 0
      ensures r.Ok? ==> subscriptions == old(subscriptions) + [r.value.subscription]
    {
      if Truthy(config.filterHasDisplayItems) {
        var field := DisplayItemsValue(filterConfig, config.displayItemsName);
        if field.TypeError? {
          return TypeError;
        }
        if GreaterThanZero(field.value) {
          paginationConfig := paginationConfig["item_per_page" := field.value];
        }
      }
      var toPost := Payload(filterConfig, paginationConfig);
      if !Callable(serviceMethod) {
        return TypeError;
      }
      var sub := new Subscription();
      subscriptions := subscriptions + [sub];
      r := Ok(Post(toPost, sub));
    }

    /**
     * The service's answer. A success replaces the rows and the pagination
     * wholesale and emits "success"; an error changes nothing and emits
     * "error". Emitting before setMessage throws.
     */
    method Respond(response: Response) returns (r: Result<()>)
      requires Valid()
      modifies this`data, this`paginationConfig, message
      ensures Valid()
      ensures response.Success? ==>
                data == response.objects && paginationConfig == WithPageCallback(response.pagination)
      ensures response.Error? ==> data == old(data) && paginationConfig == old(paginationConfig)
      ensures message != null ==>
                r.Ok? && message.emitted == old(message.emitted) + [if response.Success? then "success" else "error"]
      ensures message == null ==> r.TypeError?
    {
      match response {
        case Success(pagination, objects) =>
          data := [];
          paginationConfig := pagination;
          paginationConfig := paginationConfig["callback" := TableMethod(PageChangeHandler)];
          var i := 0;
          while i < |objects|
            invariant 0 <= i <= |objects|
            invariant data == objects[..i]
            modifies this`data
          {
            data := data + [objects[i]];
            i := i + 1;
          }
          assert objects[..i] == objects;
          if message == null {
            return TypeError;
          }
          message.Emit("success");
        case Error =>
          if message == null {
            return TypeError;
          }
          message.Emit("error");
      }
      r := Ok(());
    }

    /** Binds the shell's output channel. */
    method SetMessage(message: EventEmitter)
      modifies this`message
      ensures this.message == message
      ensures old(Valid()) ==> Valid()
    {
      this.message := message;
    }
  }

  /** The widget shell around a table. */
  class BigDatatableComponent {
    var bigdata: BigDatatable
    var message: EventEmitter

    /** The shell with its `bigdata` input bound. */
    constructor (bigdata: BigDatatable)
      ensures this.bigdata == bigdata && fresh(message) && message.emitted == []
    {
      this.bigdata := bigdata;
      message := new EventEmitter();
    }

    /** Teardown: every subscription ever recorded is unsubscribed exactly once. */
    method NgOnDestroy()
      requires bigdata.Valid()
      modifies bigdata.subscriptions
      ensures forall s :: s in bigdata.subscriptions ==> s.unsubscribeCalls == old(s.unsubscribeCalls) + 1
    {
      var subs := bigdata.subscriptions;
      var i := 0;
      while i < |subs|
        invariant 0 <= i <= |subs|
        invariant forall k :: 0 <= k < i ==> subs[k].unsubscribeCalls == old(subs[k].unsubscribeCalls) + 1
        invariant forall k :: i <= k < |subs| ==> subs[k].unsubscribeCalls == old(subs[k].unsubscribeCalls)
      {
        subs[i].Unsubscribe();
        i := i + 1;
      }
    }
  }
}
