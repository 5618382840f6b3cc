/**
 * The `outFields` projections: the five columns of the list view and the
 * longer detail projection (the common detail columns, then the
 * dataset-specific ones).
 */
module OutFields {
  import opened Text
  import opened Config

  /** The list view columns, in order: name, id, type, municipality, district. */
  const ListFields: seq<Field> := [Name, Id, Type, Municipality, District]

  /** The detail columns both datasets request, in order. */
  const DetailCommonFields: seq<Field> :=
    [Name, Id, Type, Municipality, District, Address, Email, Selo, DateOpening]

  /** The extra detail columns of the `et` dataset, in order. */
  const EtDetailExtras: seq<EtField> :=
    [Category, NumUni, NumBed, NumRoom, NumSuits, NumApa, NumResidences, NumCamp,
     CT, DesignationCT, Golf, Meeting, NumMeeting, Spa, Other, Web]

  /** The provider names of a list of common fields of one dataset. */
  function Names(api: Api, fields: seq<Field>): seq<string>
  {
    seq(|fields|, i requires 0 <= i < |fields| => FieldName(api, fields[i]))
  }

  /** The provider names of a list of `et`-only fields. */
  function EtNames(fields: seq<EtField>): seq<string>
  {
    seq(|fields|, i requires 0 <= i < |fields| => EtFieldName(fields[i]))
  }

  /** The list query's `outFields`: the list columns joined by commas. */
  function ListOutFields(api: Api): string
  {
    Join(Names(api, ListFields), ",")
  }

  /** Every column the detail query asks for, in the order it asks. */
  function DetailFieldNames(api: Api): seq<string>
  {
    Names(api, DetailCommonFields) + DetailExtraNames(api)
  }

  /** The dataset's own detail columns: the 16 `et` extras, or `NrUtentes` for `ea`. */
  function DetailExtraNames(api: Api): seq<string>
  {
    if api == ET then EtNames(EtDetailExtras) else [EaFieldName(Utents)]
  }

  /** The detail query's `outFields`: every detail column joined by commas. */
  function DetailOutFields(api: Api): string
  {
    Join(DetailFieldNames(api), ",")
  }

  /** No part holds the separator `c`. */
  predicate NoneContains(parts: seq<string>, c: char)
  {
    forall i :: 0 <= i < |parts| ==> c !in parts[i]
  }

  lemma NamesHaveNoComma(api: Api, fields: seq<Field>)
    ensures NoneContains(Names(api, fields), ',')
  {
    forall i | 0 <= i < |fields| ensures ',' !in Names(api, fields)[i] {
      FieldNameIsColumnName(api, fields[i]);
    }
  }

  lemma EtNamesHaveNoComma(fields: seq<EtField>)
    ensures NoneContains(EtNames(fields), ',')
  {
    forall i | 0 <= i < |fields| ensures ',' !in EtNames(fields)[i] {
      EtFieldNameIsColumnName(fields[i]);
    }
  }

  lemma NoneContainsAppend(a: seq<string>, b: seq<string>, c: char)
    requires NoneContains(a, c) && NoneContains(b, c)
    ensures NoneContains(a + b, c)
  {
    forall i | 0 <= i < |a + b| ensures c !in (a + b)[i] {
      if i >= |a| {
        assert (a + b)[i] == b[i - |a|];
      }
    }
  }

  lemma DetailNamesHaveNoComma(api: Api)
    ensures NoneContains(DetailFieldNames(api), ',')
  {
    NamesHaveNoComma(api, DetailCommonFields);
    if api == ET {
      EtNamesHaveNoComma(EtDetailExtras);
    } else {
      EaFieldNameIsColumnName(Utents);
    }
    NoneContainsAppend(Names(api, DetailCommonFields), DetailExtraNames(api), ',');
  }

  /** Joins five parts, written out. */
  lemma JoinFive(a: string, b: string, c: string, d: string, e: string)
    ensures Join([a, b, c, d, e], ",") == a + "," + b + "," + c + "," + d + "," + e
  {
    assert [d, e][1..] == [e];
    assert Join([d, e], ",") == d + "," + e;
    assert [c, d, e][1..] == [d, e];
    assert Join([c, d, e], ",") == c + "," + (d + "," + e);
    assert [b, c, d, e][1..] == [c, d, e];
    assert Join([b, c, d, e], ",") == b + "," + (c + "," + (d + "," + e));
    assert [a, b, c, d, e][1..] == [b, c, d, e];
  }

  lemma EtListText()
    ensures "Denominacao" + "," + "NrRNET" + "," + "TipologiaET" + "," + "Concelho" + "," + "Distrito"
      == "Denominacao,NrRNET,TipologiaET,Concelho,Distrito"
  {
    assert "Denominacao" + "," + "NrRNET" == "Denominacao,NrRNET";
    assert "Denominacao,NrRNET" + "," + "TipologiaET" == "Denominacao,NrRNET,TipologiaET";
    assert "Denominacao,NrRNET,TipologiaET" + "," + "Concelho" == "Denominacao,NrRNET,TipologiaET,Concelho";
  }

  lemma EaListText()
    ensures "Denominacao" + "," + "NrRNAL" + "," + "Modalidade" + "," + "Concelho" + "," + "Distrito"
      == "Denominacao,NrRNAL,Modalidade,Concelho,Distrito"
  {
    assert "Denominacao" + "," + "NrRNAL" == "Denominacao,NrRNAL";
    assert "Denominacao,NrRNAL" + "," + "Modalidade" == "Denominacao,NrRNAL,Modalidade";
    assert "Denominacao,NrRNAL,Modalidade" + "," + "Concelho" == "Denominacao,NrRNAL,Modalidade,Concelho";
  }

  /** The list projection splits back into the five list columns. */
  lemma ListOutFieldsSplit(api: Api)
    ensures Split(ListOutFields(api), ',') == Names(api, ListFields)
  {
    NamesHaveNoComma(api, ListFields);
    SplitJoin(Names(api, ListFields), ',');
  }

  /**
   * The list projection names exactly the five list columns, in order; for
   * `et` it is `Denominacao,NrRNET,TipologiaET,Concelho,Distrito`.
   */
  lemma ListOutFieldsColumns(api: Api)
    ensures Split(ListOutFields(api), ',') ==
      [FieldName(api, Name), FieldName(api, Id), FieldName(api, Type), FieldName(api, Municipality), FieldName(api, District)]
    ensures api == ET ==> ListOutFields(api) == "Denominacao,NrRNET,TipologiaET,Concelho,Distrito"
    ensures api == EA ==> ListOutFields(api) == "Denominacao,NrRNAL,Modalidade,Concelho,Distrito"
  {
    var names := Names(api, ListFields);
    assert names == [FieldName(api, Name), FieldName(api, Id), FieldName(api, Type), FieldName(api, Municipality), FieldName(api, District)];
    ListOutFieldsSplit(api);
    JoinFive(names[0], names[1], names[2], names[3], names[4]);
    if api == ET {
      assert names == ["Denominacao", "NrRNET", "TipologiaET", "Concelho", "Distrito"];
      EtListText();
    } else {
      assert names == ["Denominacao", "NrRNAL", "Modalidade", "Concelho", "Distrito"];
      EaListText();
    }
  }

  /**
   * Builds the detail projection as the detail query does: the common
   * columns first, then `+=` of the dataset's own extra columns.
   */
  method BuildDetailOutFields(api: Api) returns (outFields: string)
    ensures outFields == DetailOutFields(api)
  {
    outFields := Join(Names(api, DetailCommonFields), ",");
    if api == ET {
      outFields := outFields + "," + Join(EtNames(EtDetailExtras), ",");
    } else {
      outFields := outFields + "," + EaFieldName(Utents);
    }
    JoinAppend(Names(api, DetailCommonFields), DetailExtraNames(api), ",");
  }

  /**
   * The detail projection lists 25 columns for `et` and 10 for `ea`, each
   * recoverable by splitting at commas; it begins with the list projection,
   * and its `ea` part ends in `NrUtentes`.
   */
  lemma DetailOutFieldsColumns(api: Api)
    ensures Split(DetailOutFields(api), ',') == DetailFieldNames(api)
    ensures |DetailFieldNames(api)| == if api == ET then 25 else 10
    ensures DetailFieldNames(api)[..5] == Split(ListOutFields(api), ',')
    ensures ListOutFields(api) + "," <= DetailOutFields(api)
    ensures api == EA ==> DetailFieldNames(api)[9] == "NrUtentes"
  {
    DetailOutFieldsSplit(api);
    DetailBeginsWithList(api);
    DetailFieldCount(api);
  }

  lemma DetailFieldCount(api: Api)
    ensures |DetailFieldNames(api)| == if api == ET then 25 else 10
    ensures api == EA ==> DetailFieldNames(api)[9] == "NrUtentes"
  {
  }

  lemma DetailOutFieldsSplit(api: Api)
    ensures Split(DetailOutFields(api), ',') == DetailFieldNames(api)
  {
    DetailNamesHaveNoComma(api);
    SplitJoin(DetailFieldNames(api), ',');
  }

  lemma DetailBeginsWithList(api: Api)
    ensures DetailFieldNames(api)[..5] == Split(ListOutFields(api), ',')
    ensures ListOutFields(api) + "," <= DetailOutFields(api)
  {
    DetailNamesBeginWithList(api);
    ListOutFieldsSplit(api);
    DetailOutFieldsAppend(api);
  }

  lemma DetailNamesBeginWithList(api: Api)
    ensures DetailFieldNames(api)[..5] == Names(api, ListFields)
  {
  }

  lemma DetailOutFieldsAppend(api: Api)
    ensures DetailOutFields(api) == ListOutFields(api) + "," + Join(DetailFieldNames(api)[5..], ",")
  {
    var names := DetailFieldNames(api);
    var head, tail := names[..5], names[5..];
    DetailNamesBeginWithList(api);
    assert |DetailExtraNames(api)| > 0;
    assert names == head + tail;
    JoinAppend(head, tail, ",");
  }
}
