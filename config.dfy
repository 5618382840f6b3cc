/**
 * The dataset registry (API_CONFIGS): for each of the two accommodation
 * datasets, the query endpoint and the provider's attribute name for each
 * logical field.
 */
module Config {
  /** `et`: tourist establishments (ET); `ea`: local lodging (AL). */
  datatype Api = ET | EA

  /** The logical fields both datasets define. */
  datatype Field = Id | Name | Type | Municipality | District | Address | Email | Selo | DateOpening

  /** The logical fields only the `et` dataset defines. */
  datatype EtField =
    | Category | NumUni | NumBed | NumRoom | NumSuits | NumApa | NumResidences | NumCamp
    | CT | DesignationCT | Golf | Meeting | NumMeeting | Spa | Other | Web

  /** The logical field only the `ea` dataset defines. */
  datatype EaField = Utents

  /** `config.fields.<f>`: the provider attribute behind a common logical field. */
  function FieldName(api: Api, f: Field): string
  {
    match f
    case Id => if api == ET then "NrRNET" else "NrRNAL"
    case Name => "Denominacao"
    case Type => if api == ET then "TipologiaET" else "Modalidade"
    case Municipality => "Concelho"
    case District => "Distrito"
    case Address => "Endereco"
    case Email => "Email"
    case Selo => "SeloCleanSafe"
    case DateOpening => if api == ET then "DataTituloValAbert" else "DataAberturaPublico"
  }

  /** `API_CONFIGS.et.fields.<f>` for the fields only `et` has. */
  function EtFieldName(f: EtField): string
  {
    match f
    case Category => "Categoria"
    case NumUni => "NrUnidAloj"
    case NumBed => "NrCamasFixas"
    case NumRoom => "NrQuartos"
    case NumSuits => "NrSuites"
    case NumApa => "NrApart"
    case NumResidences => "NrMoradias"
    case NumCamp => "NrCampistas"
    case CT => "IntegraCT"
    case DesignationCT => "DesignacaoCT"
    case Golf => "CampoGolfe"
    case Meeting => "SalasReunioes"
    case NumMeeting => "CapacSalasReunioes"
    case Spa => "SPA"
    case Other => "OutrosEquip"
    case Web => "Website"
  }

  /** `API_CONFIGS.ea.fields.<f>` for the field only `ea` has. */
  function EaFieldName(f: EaField): string
  {
    match f
    case Utents => "NrUtentes"
  }

  /** A name that can stand in a comma-separated `outFields` list: non-empty, no comma. */
  predicate IsColumnName(s: string)
  {
    |s| > 0 && ',' !in s
  }

  lemma FieldNameIsColumnName(api: Api, f: Field)
    ensures IsColumnName(FieldName(api, f))
  {
  }

  lemma EtFieldNameIsColumnName(f: EtField)
    ensures IsColumnName(EtFieldName(f))
  {
  }

  lemma EaFieldNameIsColumnName(f: EaField)
    ensures IsColumnName(EaFieldName(f))
  {
  }

  /** The path of the dataset's query service on the provider's server. */
  function DatasetPath(api: Api): string
  {
    if api == ET then "/arcgis/rest/services/TDP/OpenData_ETExistentes/MapServer/0/query"
    else "/arcgis/rest/services/TDP/OpenData_AL/MapServer/6/query"
  }

  /**
   * `config.base`: the dataset's query endpoint under `apiBase`, the prefix the
   * page picks from its host name (a local proxy path or a CORS relay).
   */
  function Endpoint(api: Api, apiBase: string): string
  {
    apiBase + DatasetPath(api)
  }

  /**
   * An endpoint is the API base followed by its dataset's path, and the two
   * datasets never share an endpoint under the same base.
   */
  lemma EndpointShape(api: Api, apiBase: string)
    ensures apiBase <= Endpoint(api, apiBase)
    ensures Endpoint(api, apiBase)[|apiBase|..] == DatasetPath(api)
    ensures Endpoint(ET, apiBase) != Endpoint(EA, apiBase)
  {
    var e := Endpoint(api, apiBase);
    assert e[..|apiBase|] == apiBase;
    assert |DatasetPath(ET)| == 65 && |DatasetPath(EA)| == 55;
    assert |Endpoint(ET, apiBase)| != |Endpoint(EA, apiBase)|;
  }
}
