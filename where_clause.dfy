/**
 * The `where` expressions: the filter conjunction of the list and count
 * queries, and the identifier test of the detail query.
 */
module WhereClause {
  import opened Wrappers
  import opened Text
  import opened Config
  import opened SqlLiteral

  /** The optional `{ district?, type? }` filter object; `kind` is its `type`. */
  datatype Filters = Filters(district: Option<string>, kind: Option<string>)

  /**
   * JavaScript truthiness of an optional string: `undefined` and `""` are falsy,
   * every other string is truthy.
   */
  predicate Truthy(v: Option<string>)
  {
    v.Some? && v.value != ""
  }

  /** The always-true predicate used when nothing constrains the query. */
  const AlwaysTrue: string := "1=1"

  /** One equality term on a string column: `column = '<escaped value>'`. */
  function Condition(column: string, value: string): string
  {
    column + " = '" + Escape(value) + "'"
  }

  /**
   * What the filter where clause is, case by case: the district term, the
   * type term, both joined by ` AND ` with the district first, or `1=1`.
   */
  function FilterWhere(api: Api, filters: Filters): string
  {
    var district := FieldName(api, District);
    var kind := FieldName(api, Type);
    if Truthy(filters.district) && Truthy(filters.kind) then
      Condition(district, filters.district.value) + " AND " + Condition(kind, filters.kind.value)
    else if Truthy(filters.district) then Condition(district, filters.district.value)
    else if Truthy(filters.kind) then Condition(kind, filters.kind.value)
    else AlwaysTrue
  }

  /**
   * Builds the where clause as the list and count queries do: push a term per
   * truthy filter onto `conditions`, then join them if there are any.
   */
  method BuildFilterWhere(api: Api, filters: Filters) returns (where: string)
    ensures where == FilterWhere(api, filters)
  {
    where := AlwaysTrue;
    var conditions: seq<string> := [];
    if Truthy(filters.district) {
      conditions := conditions + [Condition(FieldName(api, District), filters.district.value)];
    }
    if Truthy(filters.kind) {
      conditions := conditions + [Condition(FieldName(api, Type), filters.kind.value)];
    }
    if |conditions| > 0 {
      where := Join(conditions, " AND ");
      if |conditions| == 2 {
        assert conditions[1..] == [conditions[1]];
        assert Join(conditions[1..], " AND ") == conditions[1];
      }
    }
  }

  /** The clause is `1=1` exactly when neither filter is set (undefined or empty). */
  lemma WhereDefaultsIffNoFilters(api: Api, filters: Filters)
    ensures FilterWhere(api, filters) == AlwaysTrue <==> !Truthy(filters.district) && !Truthy(filters.kind)
  {
    var r := FilterWhere(api, filters);
    if Truthy(filters.district) {
      FieldNameIsColumnName(api, District);
      assert r[0] == 'D';
    } else if Truthy(filters.kind) {
      FieldNameIsColumnName(api, Type);
      assert r[0] == FieldName(api, Type)[0];
      assert r[0] == 'T' || r[0] == 'M';
    }
  }

  /** With one filter set, the clause is that filter's single term. */
  lemma WhereOneFilter(api: Api, filters: Filters)
    requires Truthy(filters.district) != Truthy(filters.kind)
    ensures Truthy(filters.district) ==> FilterWhere(api, filters) == "Distrito = '" + Escape(filters.district.value) + "'"
    ensures Truthy(filters.kind) ==> FilterWhere(api, filters) == FieldName(api, Type) + " = '" + Escape(filters.kind.value) + "'"
  {
  }

  /**
   * With both filters set, the clause is the district term, ` AND `, then the
   * type term on the dataset's type column.
   */
  lemma WhereBothFilters(api: Api, d: string, t: string)
    requires d != "" && t != ""
    ensures FilterWhere(api, Filters(Some(d), Some(t))) ==
      "Distrito = '" + Escape(d) + "' AND " + (if api == ET then "TipologiaET" else "Modalidade") + " = '" + Escape(t) + "'"
  {
    var kind := if api == ET then "TipologiaET" else "Modalidade";
    assert FieldName(api, Type) == kind;
    BothConditionsText(kind, Escape(d), Escape(t));
  }

  lemma BothConditionsText(kind: string, ed: string, et: string)
    ensures ("Distrito" + " = '" + ed + "'") + " AND " + (kind + " = '" + et + "'")
      == "Distrito = '" + ed + "' AND " + kind + " = '" + et + "'"
  {
    assert "Distrito" + " = '" == "Distrito = '";
    assert "'" + " AND " == "' AND ";
  }

  /** Reading a term's literal gives back the value it was built from. */
  lemma ConditionReadsBack(column: string, value: string, rest: string)
    requires rest == [] || rest[0] != Quote
    ensures (Condition(column, value) + rest)[..|column| + 4] == column + " = '"
    ensures ReadLiteral((Condition(column, value) + rest)[|column| + 4..]) == Some((value, rest))
  {
    var c := Condition(column, value) + rest;
    assert c == (column + " = '") + (Escape(value) + [Quote] + rest);
    ReadEscaped(value, rest);
  }

  /**
   * With both filters set, an SQL reader of the clause finds the district
   * literal first and reads exactly the district value from it, then
   * ` AND ` and the type term, whose literal reads exactly the type value:
   * quotes in the values cannot end a literal early.
   */
  lemma WhereReadsBackFilters(api: Api, d: string, t: string)
    requires d != "" && t != ""
    ensures var r := FilterWhere(api, Filters(Some(d), Some(t)));
      var typeTerm := Condition(FieldName(api, Type), t);
      && r[..12] == "Distrito = '"
      && ReadLiteral(r[12..]) == Some((d, " AND " + typeTerm))
      && typeTerm[..|FieldName(api, Type)| + 4] == FieldName(api, Type) + " = '"
      && ReadLiteral(typeTerm[|FieldName(api, Type)| + 4..]) == Some((t, ""))
  {
    assert FilterWhere(api, Filters(Some(d), Some(t)))
      == Condition("Distrito", d) + " AND " + Condition(FieldName(api, Type), t);
    TermsReadBack(FieldName(api, Type), d, t);
  }

  /** Both literals of `Distrito = '<d>' AND <column> = '<t>'` read back, for any column. */
  lemma TermsReadBack(column: string, d: string, t: string)
    ensures var r := Condition("Distrito", d) + " AND " + Condition(column, t);
      var typeTerm := Condition(column, t);
      && r[..12] == "Distrito = '"
      && ReadLiteral(r[12..]) == Some((d, " AND " + typeTerm))
      && typeTerm[..|column| + 4] == column + " = '"
      && ReadLiteral(typeTerm[|column| + 4..]) == Some((t, ""))
  {
    var r := Condition("Distrito", d) + " AND " + Condition(column, t);
    var typeTerm := Condition(column, t);
    var tail := Escape(d) + [Quote] + (" AND " + typeTerm);
    assert r == "Distrito = '" + tail;
    SplitAfter("Distrito = '", tail);
    ReadEscaped(d, " AND " + typeTerm);
    ConditionReadsBack(column, t, "");
    assert typeTerm + "" == typeTerm;
  }

  lemma SplitAfter(head: string, tail: string)
    ensures (head + tail)[..|head|] == head && (head + tail)[|head|..] == tail
  {
  }

  /**
   * The detail query's clause: the identifier column equal to the id, quoted
   * for `et` and left as a bare numeric literal for `ea`. The id is embedded
   * verbatim, without escaping.
   */
  function DetailWhere(api: Api, id: string): string
  {
    if api == ET then FieldName(api, Id) + " = '" + id + "'"
    else FieldName(api, Id) + " = " + id
  }

  /** Builds the detail clause as the detail query does, through a one-term `conditions` list. */
  method BuildDetailWhere(api: Api, id: string) returns (where: string)
    ensures where == DetailWhere(api, id)
  {
    where := AlwaysTrue;
    var conditions: seq<string> := [];
    if api == ET {
      conditions := conditions + [FieldName(api, Id) + " = '" + id + "'"];
    } else {
      conditions := conditions + [FieldName(api, Id) + " = " + id];
    }
    if |conditions| > 0 {
      where := Join(conditions, " AND ");
    }
  }

  /**
   * For `et` the clause is `NrRNET = '<id>'` and an id without quotes reads
   * back from the literal unchanged; for `ea` it is `NrRNAL = <id>`, the id
   * standing unquoted after the operator.
   */
  lemma DetailWhereShape(api: Api, id: string)
    ensures api == ET ==> DetailWhere(api, id) == "NrRNET = '" + id + "'"
    ensures api == ET && Quote !in id ==> ReadLiteral(DetailWhere(api, id)[10..]) == Some((id, ""))
    ensures api == EA ==> DetailWhere(api, id) == "NrRNAL = " + id && DetailWhere(api, id)[9..] == id
  {
    var r := DetailWhere(api, id);
    if api == ET {
      assert r == "NrRNET = '" + (id + [Quote]);
      if Quote !in id {
        EscapeWithoutQuotes(id);
        ReadEscaped(id, "");
        assert r[10..] == Escape(id) + [Quote] + "";
      }
    } else {
      assert r == "NrRNAL = " + id;
    }
  }

  /**
   * The id is not escaped: the `et` literal reads back as exactly the id if
   * and only if the id holds no quote.
   */
  lemma DetailIdReadsBack(id: string)
    ensures ReadLiteral(DetailWhere(ET, id)[10..]) == Some((id, "")) <==> Quote !in id
  {
    assert DetailWhere(ET, id) == "NrRNET = '" + (id + [Quote]);
    assert DetailWhere(ET, id)[10..] == id + [Quote];
    UnescapedReadsBack(id);
  }

  /** A witness: for the id `1'2` the `et` literal closes after `1`, leaving `2'`. */
  lemma DetailIdNotEscaped()
    ensures ReadLiteral(DetailWhere(ET, "1'2")[10..]) == Some(("1", "2'"))
  {
    var r := DetailWhere(ET, "1'2");
    assert "1'2" == ['1', Quote, '2'];
    var u: string := [Quote, '2', Quote];
    var t: string := ['1'] + u;
    assert r == "NrRNET = '" + t;
    assert r[10..] == t;
    assert t[1..] == u && u[1..] == ['2', Quote];
    assert ReadLiteral(u) == Some(([], ['2', Quote]));
    assert ReadLiteral(t) == Some((['1'] + [], ['2', Quote]));
    assert "1" == ['1'] + [] && "2'" == ['2', Quote];
  }
}
