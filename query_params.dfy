/**
 * The ordered query parameters of the list, count, distinct-value and detail
 * requests, as the URLSearchParams objects hold them before serialisation.
 */
module QueryParams {
  import opened Wrappers
  import opened Text
  import opened Config
  import opened WhereClause
  import opened OutFields

  /** One `key=value` entry of a URLSearchParams object. */
  datatype Param = Param(key: string, value: string)

  /** The keys, in order. */
  function Keys(params: seq<Param>): (r: seq<string>)
    ensures |r| == |params|
    ensures forall i :: 0 <= i < |params| ==> r[i] == params[i].key
  {
    seq(|params|, i requires 0 <= i < |params| => params[i].key)
  }

  /** `params.get(key)`: the value of the first entry with that key, if any. */
  function Lookup(params: seq<Param>, key: string): Option<string>
  {
    if params == [] then None
    else if params[0].key == key then Some(params[0].value)
    else Lookup(params[1..], key)
  }

  /** The first entry with the key decides what Lookup finds. */
  lemma {:induction false} LookupFirst(params: seq<Param>, key: string, i: nat)
    requires i < |params| && params[i].key == key
    requires forall j :: 0 <= j < i ==> params[j].key != key
    ensures Lookup(params, key) == Some(params[i].value)
  {
    if i > 0 {
      LookupFirst(params[1..], key, i - 1);
    }
  }

  /** Lookup finds nothing for a key no entry has. */
  lemma {:induction false} LookupAbsent(params: seq<Param>, key: string)
    requires key !in Keys(params)
    ensures Lookup(params, key) == None
  {
    if params != [] {
      assert params[0].key == Keys(params)[0];
      assert Keys(params[1..]) == Keys(params)[1..];
      LookupAbsent(params[1..], key);
    }
  }

  /** The list page request: getAccommodationsPage's parameters, in order. */
  function ListQuery(api: Api, offset: int, limit: int, filters: Filters, sortBy: Option<string>): seq<Param>
  {
    var page := [
      Param("where", FilterWhere(api, filters)),
      Param("outFields", ListOutFields(api)),
      Param("returnGeometry", "false"),
      Param("outSR", "4326"),
      Param("f", "json"),
      Param("resultOffset", IntToString(offset)),
      Param("resultRecordCount", IntToString(limit))
    ];
    if Truthy(sortBy) then page + [Param("orderByFields", sortBy.value)] else page
  }

  /**
   * Builds the list parameters as getAccommodationsPage does: the where
   * clause, the seven fixed entries, then `append` of `orderByFields` when a
   * sort column is given.
   */
  method BuildListParams(api: Api, offset: int, limit: int, filters: Filters, sortBy: Option<string>)
    returns (params: seq<Param>)
    ensures params == ListQuery(api, offset, limit, filters, sortBy)
  {
    var where := BuildFilterWhere(api, filters);
    params := [
      Param("where", where),
      Param("outFields", ListOutFields(api)),
      Param("returnGeometry", "false"),
      Param("outSR", "4326"),
      Param("f", "json"),
      Param("resultOffset", IntToString(offset)),
      Param("resultRecordCount", IntToString(limit))
    ];
    if Truthy(sortBy) {
      params := params + [Param("orderByFields", sortBy.value)];
    }
  }

  /** The count request: getAccommodationsCount's parameters, in order. */
  function CountQuery(api: Api, filters: Filters): seq<Param>
  {
    [Param("where", FilterWhere(api, filters)), Param("returnCountOnly", "true"), Param("f", "json")]
  }

  /** Builds the count parameters as getAccommodationsCount does. */
  method BuildCountParams(api: Api, filters: Filters) returns (params: seq<Param>)
    ensures params == CountQuery(api, filters)
  {
    var where := BuildFilterWhere(api, filters);
    params := [Param("where", where), Param("returnCountOnly", "true"), Param("f", "json")];
  }

  /**
   * The distinct-value request of getUniqueDistricts (`field` = District) and
   * getUniqueTypes (`field` = Type): every row, one column, distinct values.
   */
  function DistinctQuery(api: Api, field: Field): seq<Param>
  {
    [
      Param("where", AlwaysTrue),
      Param("outFields", FieldName(api, field)),
      Param("returnGeometry", "false"),
      Param("outSR", "4326"),
      Param("f", "json"),
      Param("returnDistinctValues", "true")
    ]
  }

  /** The detail request: getAccommodationsDetails's parameters, in order. */
  function DetailQuery(api: Api, id: string): seq<Param>
  {
    [
      Param("where", DetailWhere(api, id)),
      Param("outFields", DetailOutFields(api)),
      Param("returnGeometry", "false"),
      Param("outSR", "4326"),
      Param("f", "json")
    ]
  }

  /** Builds the detail parameters as getAccommodationsDetails does. */
  method BuildDetailParams(api: Api, id: string) returns (params: seq<Param>)
    ensures params == DetailQuery(api, id)
  {
    var outFields := BuildDetailOutFields(api);
    var where := BuildDetailWhere(api, id);
    params := [
      Param("where", where),
      Param("outFields", outFields),
      Param("returnGeometry", "false"),
      Param("outSR", "4326"),
      Param("f", "json")
    ];
  }

  /**
   * The list request carries, in order, where, outFields, returnGeometry,
   * outSR, f, resultOffset and resultRecordCount, then orderByFields exactly
   * when a sort column is given; the sort column is passed through as given.
   */
  lemma ListQueryKeys(api: Api, offset: int, limit: int, filters: Filters, sortBy: Option<string>)
    ensures Keys(ListQuery(api, offset, limit, filters, sortBy)) ==
      ["where", "outFields", "returnGeometry", "outSR", "f", "resultOffset", "resultRecordCount"]
      + (if Truthy(sortBy) then ["orderByFields"] else [])
    ensures Lookup(ListQuery(api, offset, limit, filters, sortBy), "orderByFields") ==
      if Truthy(sortBy) then sortBy else None
  {
    var page := ListQuery(api, offset, limit, filters, None);
    PageParams(page, FilterWhere(api, filters), ListOutFields(api), IntToString(offset), IntToString(limit));
    if Truthy(sortBy) {
      var q := page + [Param("orderByFields", sortBy.value)];
      assert Keys(q) == Keys(page) + ["orderByFields"];
      LookupFirst(q, "orderByFields", 7);
    } else {
      LookupAbsent(page, "orderByFields");
    }
  }

  /** Keys and lookups of the seven entries every list request starts with. */
  lemma PageParams(page: seq<Param>, where: string, outFields: string, offset: string, limit: string)
    requires page == [
      Param("where", where),
      Param("outFields", outFields),
      Param("returnGeometry", "false"),
      Param("outSR", "4326"),
      Param("f", "json"),
      Param("resultOffset", offset),
      Param("resultRecordCount", limit)
    ]
    ensures Keys(page) == ["where", "outFields", "returnGeometry", "outSR", "f", "resultOffset", "resultRecordCount"]
    ensures Lookup(page, "resultOffset") == Some(offset)
    ensures Lookup(page, "resultRecordCount") == Some(limit)
  {
    LookupFirst(page, "resultOffset", 5);
    LookupFirst(page, "resultRecordCount", 6);
  }

  /**
   * Giving a sort column appends one orderByFields entry at the end and
   * changes nothing else; an undefined or empty sort column changes nothing.
   */
  lemma ListQuerySortAppends(api: Api, offset: int, limit: int, filters: Filters, sortBy: Option<string>)
    ensures Truthy(sortBy) ==>
      ListQuery(api, offset, limit, filters, sortBy) == ListQuery(api, offset, limit, filters, None) + [Param("orderByFields", sortBy.value)]
    ensures !Truthy(sortBy) ==> ListQuery(api, offset, limit, filters, sortBy) == ListQuery(api, offset, limit, filters, None)
  {
  }

  /**
   * The pagination window is passed through exactly: the resultOffset and
   * resultRecordCount values read back as the given offset and limit.
   */
  lemma ListQueryPagination(api: Api, offset: int, limit: int, filters: Filters, sortBy: Option<string>)
    ensures var q := ListQuery(api, offset, limit, filters, sortBy);
      && Lookup(q, "resultOffset").Some? && ParseInt(Lookup(q, "resultOffset").value) == Some(offset)
      && Lookup(q, "resultRecordCount").Some? && ParseInt(Lookup(q, "resultRecordCount").value) == Some(limit)
  {
    var page := ListQuery(api, offset, limit, filters, None);
    PageParams(page, FilterWhere(api, filters), ListOutFields(api), IntToString(offset), IntToString(limit));
    if Truthy(sortBy) {
      var q := page + [Param("orderByFields", sortBy.value)];
      LookupFirst(q, "resultOffset", 5);
      LookupFirst(q, "resultRecordCount", 6);
    }
    IntToStringRoundTrip(offset);
    IntToStringRoundTrip(limit);
  }

  /**
   * The count request filters exactly as the list request does for the same
   * dataset and filters, and carries only where, returnCountOnly=true and f=json.
   */
  lemma CountMatchesList(api: Api, offset: int, limit: int, filters: Filters, sortBy: Option<string>)
    ensures Lookup(CountQuery(api, filters), "where") == Lookup(ListQuery(api, offset, limit, filters, sortBy), "where")
    ensures Keys(CountQuery(api, filters)) == ["where", "returnCountOnly", "f"]
    ensures Lookup(CountQuery(api, filters), "returnCountOnly") == Some("true")
    ensures Lookup(CountQuery(api, filters), "f") == Some("json")
  {
    LookupFirst(CountQuery(api, filters), "f", 2);
  }

  /**
   * With no filter set, both the list and the count request select every
   * row with `1=1`; with a filter set, neither does.
   */
  lemma UnfilteredSelectsAll(api: Api, offset: int, limit: int, filters: Filters, sortBy: Option<string>)
    ensures Lookup(ListQuery(api, offset, limit, filters, sortBy), "where") == Some(AlwaysTrue)
      <==> !Truthy(filters.district) && !Truthy(filters.kind)
    ensures Lookup(CountQuery(api, filters), "where") == Some(AlwaysTrue)
      <==> !Truthy(filters.district) && !Truthy(filters.kind)
  {
    WhereDefaultsIffNoFilters(api, filters);
  }

  /**
   * The distinct-value request selects every row, asks for the single
   * column of the chosen field and for distinct values, and carries no
   * resultOffset or resultRecordCount: it is not paged.
   */
  lemma DistinctQueryShape(api: Api, field: Field)
    ensures Lookup(DistinctQuery(api, field), "where") == Some(AlwaysTrue)
    ensures Lookup(DistinctQuery(api, field), "outFields") == Some(FieldName(api, field))
    ensures Split(FieldName(api, field), ',') == [FieldName(api, field)]
    ensures Lookup(DistinctQuery(api, field), "returnDistinctValues") == Some("true")
    ensures Keys(DistinctQuery(api, field)) == ["where", "outFields", "returnGeometry", "outSR", "f", "returnDistinctValues"]
  {
    DistinctParams(DistinctQuery(api, field), FieldName(api, field));
    FieldNameIsColumnName(api, field);
    SplitWithoutSeparator(FieldName(api, field), ',');
  }

  lemma DistinctParams(q: seq<Param>, outFields: string)
    requires q == [
      Param("where", AlwaysTrue),
      Param("outFields", outFields),
      Param("returnGeometry", "false"),
      Param("outSR", "4326"),
      Param("f", "json"),
      Param("returnDistinctValues", "true")
    ]
    ensures Lookup(q, "where") == Some(AlwaysTrue)
    ensures Lookup(q, "outFields") == Some(outFields)
    ensures Lookup(q, "returnDistinctValues") == Some("true")
    ensures Keys(q) == ["where", "outFields", "returnGeometry", "outSR", "f", "returnDistinctValues"]
  {
    LookupFirst(q, "outFields", 1);
    LookupFirst(q, "returnDistinctValues", 5);
  }

  /**
   * The detail request selects by the identifier clause, projects every
   * detail column (DetailOutFieldsColumns) and is not paged.
   */
  lemma DetailQueryShape(api: Api, id: string)
    ensures Lookup(DetailQuery(api, id), "where") == Some(DetailWhere(api, id))
    ensures Lookup(DetailQuery(api, id), "outFields") == Some(DetailOutFields(api))
    ensures Keys(DetailQuery(api, id)) == ["where", "outFields", "returnGeometry", "outSR", "f"]
  {
    FeatureParams(DetailQuery(api, id), DetailWhere(api, id), DetailOutFields(api));
  }

  lemma FeatureParams(q: seq<Param>, where: string, outFields: string)
    requires q == [
      Param("where", where),
      Param("outFields", outFields),
      Param("returnGeometry", "false"),
      Param("outSR", "4326"),
      Param("f", "json")
    ]
    ensures Lookup(q, "where") == Some(where)
    ensures Lookup(q, "outFields") == Some(outFields)
    ensures Keys(q) == ["where", "outFields", "returnGeometry", "outSR", "f"]
  {
    LookupFirst(q, "outFields", 1);
  }

  /**
   * A request before serialisation: the endpoint it goes to (`config.base`)
   * and its parameters; the URL is `<endpoint>?<params>`.
   */
  datatype Request = Request(endpoint: string, params: seq<Param>)

  function ListRequest(api: Api, apiBase: string, offset: int, limit: int, filters: Filters, sortBy: Option<string>): Request
  {
    Request(Endpoint(api, apiBase), ListQuery(api, offset, limit, filters, sortBy))
  }

  function CountRequest(api: Api, apiBase: string, filters: Filters): Request
  {
    Request(Endpoint(api, apiBase), CountQuery(api, filters))
  }

  function DistinctRequest(api: Api, apiBase: string, field: Field): Request
  {
    Request(Endpoint(api, apiBase), DistinctQuery(api, field))
  }

  function DetailRequest(api: Api, apiBase: string, id: string): Request
  {
    Request(Endpoint(api, apiBase), DetailQuery(api, id))
  }

  /**
   * Every request of a dataset goes to the API base followed by that
   * dataset's path, whatever its other inputs; an `et` request and an `ea`
   * request never go to the same endpoint.
   */
  lemma RequestsTargetDataset(api: Api, apiBase: string, offset: int, limit: int, filters: Filters,
                              sortBy: Option<string>, field: Field, id: string)
    ensures var e := ListRequest(api, apiBase, offset, limit, filters, sortBy).endpoint;
      apiBase <= e && e[|apiBase|..] == DatasetPath(api)
    ensures CountRequest(api, apiBase, filters).endpoint == ListRequest(api, apiBase, offset, limit, filters, sortBy).endpoint
    ensures DistinctRequest(api, apiBase, field).endpoint == ListRequest(api, apiBase, offset, limit, filters, sortBy).endpoint
    ensures DetailRequest(api, apiBase, id).endpoint == ListRequest(api, apiBase, offset, limit, filters, sortBy).endpoint
    ensures ListRequest(ET, apiBase, offset, limit, filters, sortBy).endpoint
      != ListRequest(EA, apiBase, offset, limit, filters, sortBy).endpoint
  {
    EndpointShape(api, apiBase);
  }
}
