/** The dynamic-analysis page: it holds the control panel's selections,
    validates them, builds the query request, and turns the response into
    grid rows and column definitions. */
module AnaliseDinamica {
  import opened Wrappers
  import opened JsText
  import opened PainelDeControle

  /** A cell of a result row, as the query endpoint returns it. */
  datatype Cell = Text(text: string) | Number(number: real) | Null

  type ResultRow = map<string, Cell>

  /** A date picker's value: a day, or the `Invalid Date` the picker
      holds while a typed date is incomplete (a truthy `Date` whose time
      is not a number). */
  datatype PickedDate = Day(day: int) | InvalidDate

  /** `date.toISOString().split('T')[0]` as a day; `None` when
      `toISOString` throws, which it does on an invalid date. The ISO
      rendering itself is formatting and is not modelled. */
  function IsoDay(d: PickedDate): (r: Option<int>)
    ensures r.None? <==> d.InvalidDate?
    ensures d.Day? ==> r == Some(d.day)
  {
    match d
    case Day(n) => Some(n)
    case InvalidDate => None
  }

  /** The body posted to the query endpoint, with the dates as days. */
  datatype QueryRequest = QueryRequest(
    dataInicial: int,
    dataFinal: int,
    dimensoes: seq<string>,
    metricas: seq<Metrica>,
    filtros: map<string, string>)

  /** What the request produced: a transport or HTTP error, or a response
      whose body may be missing or not a list. */
  datatype QueryResponse = RequestFailed | Responded(data: Option<seq<ResultRow>>)

  /** A grid column. Dimension columns use the text filter, metric columns
      the number filter and a two-decimal formatter; both are sortable,
      filterable and resizable. */
  datatype ColumnDef = ColumnDef(headerName: string, field: string, numberColumn: bool)

  const ValidationMessage := "Por favor, preencha as datas e selecione ao menos uma dimensão e uma métrica."
  const FetchErrorMessage := "Ocorreu um erro ao buscar os dados."

  /** The filters sent with the query: entries with a value that is not
      blank, kept untrimmed. */
  function FiltrosAtivos(filtros: Filtros): (r: map<string, string>)
    ensures forall k :: k in r <==> k in filtros && filtros[k].Some? && !IsBlank(filtros[k].value)
    ensures forall k :: k in r ==> filtros[k] == Some(r[k])
  {
    forall k | k in filtros && filtros[k].Some? ensures Trim(filtros[k].value) == "" <==> IsBlank(filtros[k].value) {
      TrimEmptyIffBlank(filtros[k].value);
    }
    map k | k in filtros && filtros[k].Some? && Trim(filtros[k].value) != "" :: filtros[k].value
  }

  /** `name.replace(/_/g, ' ').toUpperCase()`. */
  function ColumnHeader(name: string): (h: string)
    ensures |h| == |name|
    ensures forall i :: 0 <= i < |name| ==> h[i] == (if name[i] == '_' then ' ' else UpperChar(name[i]))
  {
    ToUpperCase(ReplaceUnderscores(name))
  }

  function DimensaoColumn(d: string): (c: ColumnDef)
    ensures c.field == d && !c.numberColumn && c.headerName == ColumnHeader(d)
  {
    ColumnDef(ColumnHeader(d), d, false)
  }

  /** The header comes from `m.label || m.nome`; the field is always the name. */
  function MetricaColumn(m: Metrica): (c: ColumnDef)
    ensures c.field == m.nome && c.numberColumn
    ensures c.headerName == ColumnHeader(if m.displayLabel.Some? && m.displayLabel.value != "" then m.displayLabel.value else m.nome)
  {
    var shown := if m.displayLabel.Some? && m.displayLabel.value != "" then m.displayLabel.value else m.nome;
    ColumnDef(ColumnHeader(shown), m.nome, true)
  }

  /** All dimension columns, then all metric columns, each in selection order. */
  function ColumnDefs(dimensoes: seq<string>, metricas: seq<Metrica>): (cols: seq<ColumnDef>)
    ensures |cols| == |dimensoes| + |metricas|
    ensures forall i :: 0 <= i < |dimensoes| ==> cols[i] == DimensaoColumn(dimensoes[i])
    ensures forall j :: 0 <= j < |metricas| ==> cols[|dimensoes| + j] == MetricaColumn(metricas[j])
  {
    seq(|dimensoes|, i requires 0 <= i < |dimensoes| => DimensaoColumn(dimensoes[i]))
      + seq(|metricas|, j requires 0 <= j < |metricas| => MetricaColumn(metricas[j]))
  }

  /** The page's state. */
  class AnalysisPage {
    var painelAberto: bool
    var dataInicial: Option<PickedDate>
    var dataFinal: Option<PickedDate>
    var dimensoes: seq<string>
    var metricas: seq<Metrica>
    var filtros: Filtros
    var resultado: seq<ResultRow>
    var colunas: seq<ColumnDef>
    var loading: bool
    var error: string

    constructor ()
      ensures painelAberto && dataInicial.None? && dataFinal.None?
      ensures dimensoes == [] && metricas == [] && filtros == map[]
      ensures resultado == [] && colunas == [] && !loading && error == ""
    {
      painelAberto := true;
      dataInicial, dataFinal := None, None;
      dimensoes, metricas, filtros := [], [], map[];
      resultado, colunas := [], [];
      loading, error := false, "";
    }

    /** The page's selections form a submittable query. */
    predicate Submittable()
      reads this
    {
      dataInicial.Some? && dataFinal.Some? && |dimensoes| > 0 && |metricas| > 0
    }

    /** The export button is shown only when there are results. */
    function ShowExportButton(): (shown: bool)
      reads this
      ensures shown <==> resultado != []
    {
      |resultado| > 0
    }

    method ChangeDimensao(name: string, checked: bool)
      modifies this`dimensoes
      ensures dimensoes == HandleDimensaoChange(old(dimensoes), name, checked)
    {
      dimensoes := HandleDimensaoChange(dimensoes, name, checked);
    }

    method ChangeMetrica(name: string, checked: bool)
      requires checked ==> FindMetrica(MetricasDisponiveis, name).Some?
      modifies this`metricas
      ensures metricas == HandleMetricaChange(old(metricas), name, checked)
    {
      metricas := HandleMetricaChange(metricas, name, checked);
    }

    method ChangeFiltro(name: string, value: string)
      modifies this`filtros
      ensures filtros == HandleFiltroChange(old(filtros), name, value)
    {
      filtros := HandleFiltroChange(filtros, name, value);
    }

    method SetDatas(inicial: Option<PickedDate>, final: Option<PickedDate>)
      modifies this`dataInicial, this`dataFinal
      ensures dataInicial == inicial && dataFinal == final
    {
      dataInicial, dataFinal := inicial, final;
    }

    /** The show/hide panel button. */
    method TogglePainel()
      modifies this`painelAberto
      ensures painelAberto == !old(painelAberto)
    {
      painelAberto := !painelAberto;
    }

    /** `handleAnalisar` up to the request: an incomplete selection only sets
      the error message; otherwise the error is cleared, loading starts,
      the previous results and columns are dropped and the panel closes.
      Then the dates are converted: an invalid one throws there, before
      the `try`, so no request is sent and nothing clears the loading
      flag (`threw`); otherwise the request to send is returned. */
    method BeginAnalisar() returns (request: Option<QueryRequest>, threw: bool)
      modifies this
      ensures !old(Submittable()) ==>
        && request.None? && !threw && error == ValidationMessage
        && painelAberto == old(painelAberto) && loading == old(loading)
        && resultado == old(resultado) && colunas == old(colunas)
      ensures old(Submittable()) ==>
        && error == "" && loading && resultado == [] && colunas == [] && !painelAberto
        && (threw <==> old(dataInicial).value.InvalidDate? || old(dataFinal).value.InvalidDate?)
        && (threw ==> request.None?)
        && (!threw ==> request == Some(QueryRequest(IsoDay(old(dataInicial).value).value, IsoDay(old(dataFinal).value).value,
                                                    old(dimensoes), old(metricas), FiltrosAtivos(old(filtros)))))
      ensures request.None? ==>
        loading == LoadingAfterAnalisar(old(dataInicial), old(dataFinal), |old(dimensoes)|, |old(metricas)|, old(loading))
      ensures dataInicial == old(dataInicial) && dataFinal == old(dataFinal)
      ensures dimensoes == old(dimensoes) && metricas == old(metricas) && filtros == old(filtros)
    {
      threw := false;
      if dataInicial.None? || dataFinal.None? || |dimensoes| == 0 || |metricas| == 0 {
        error := ValidationMessage;
        return None, false;
      }
      error := "";
      loading := true;
      resultado := [];
      colunas := [];
      painelAberto := false;
      var ativos := FiltrosAtivos(filtros);
      var inicial := IsoDay(dataInicial.value);
      var final := IsoDay(dataFinal.value);
      if inicial.None? || final.None? {
        return None, true;
      }
      request := Some(QueryRequest(inicial.value, final.value, dimensoes, metricas, ativos));
    }

    /** `handleAnalisar` after the request. The columns come from the
      selections captured when the request was built. Loading ends on
      every path. */
    method FinishAnalisar(request: QueryRequest, response: QueryResponse)
      modifies this`resultado, this`colunas, this`loading, this`error
      ensures !loading
      ensures response.RequestFailed? ==>
        error == FetchErrorMessage && resultado == old(resultado) && colunas == old(colunas)
      ensures response.Responded? && response.data.Some? && response.data.value != [] ==>
        && resultado == response.data.value
        && colunas == ColumnDefs(request.dimensoes, request.metricas)
        && error == old(error)
      ensures response.Responded? && (response.data.None? || response.data.value == []) ==>
        resultado == [] && colunas == [] && error == old(error)
    {
      match response {
        case RequestFailed =>
          error := FetchErrorMessage;
        case Responded(data) =>
          if data.Some? && |data.value| > 0 {
            colunas := ColumnDefs(request.dimensoes, request.metricas);
            resultado := data.value;
          } else {
            resultado := [];
            colunas := [];
          }
      }
      loading := false;
    }
  }

  /** The loading flag once `handleAnalisar` has run and sent no request,
      as written: validation leaves it as it was; a selection that passes
      validation sets it, and a date that does not convert throws before
      the `try` whose `finally` would clear it. */
  function LoadingAfterAnalisar(inicial: Option<PickedDate>, final: Option<PickedDate>,
                                dims: nat, mets: nat, before: bool): bool
  {
    if inicial.None? || final.None? || dims == 0 || mets == 0 then before
    else IsoDay(inicial.value).None? || IsoDay(final.value).None?
  }

  /** An incomplete typed start date leaves the page loading for good,
      with the panel closed and no request sent. */
  lemma InvalidDateLeavesLoadingOn()
    ensures LoadingAfterAnalisar(Some(InvalidDate), Some(Day(0)), 1, 1, false)
  {
  }

  /** The same flag with the date conversion inside the `try`: a selection
      that passes validation always reaches `finally`. */
  function LoadingAfterAnalisarFixed(inicial: Option<PickedDate>, final: Option<PickedDate>,
                                     dims: nat, mets: nat, before: bool): bool
  {
    if inicial.None? || final.None? || dims == 0 || mets == 0 then before else false
  }

  /** With the conversion inside the `try`, the indicator always ends once
      the selection is submitted, and validation alone never sets it. */
  lemma FixedAnalisarEndsLoading(inicial: Option<PickedDate>, final: Option<PickedDate>,
                                 dims: nat, mets: nat, before: bool)
    ensures inicial.Some? && final.Some? && dims > 0 && mets > 0 ==>
      !LoadingAfterAnalisarFixed(inicial, final, dims, mets, before)
    ensures !(inicial.Some? && final.Some? && dims > 0 && mets > 0) ==>
      LoadingAfterAnalisarFixed(inicial, final, dims, mets, before) == before
  {
  }
}
