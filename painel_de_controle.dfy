/** The analysis control panel: the catalogues of dimensions and metrics,
    the state updaters behind its checkboxes and filter fields, and the
    rules for what each checkbox shows. */
module PainelDeControle {
  import opened Wrappers
  import opened Seqs
  import opened JsText

  /** A metric the query can aggregate; `displayLabel` (the source's `label`) overrides the displayed name. */
  datatype Metrica = Metrica(nome: string, agregacao: string, displayLabel: Option<string>)

  /** The filter fields by name. A value is whatever the text field last held. */
  type Filtros = map<string, Option<string>>

  const DimensoesDisponiveis: seq<string> := [
    "nome_loja", "nome_marca", "nome_departamento", "nome_produto", "mes",
    "codigo_produto", "nome_fornecedor", "nome_classificacao", "nome_grupo", "nome_modelo"
  ]

  const MetricasDisponiveis: seq<Metrica> := [
    Metrica("quantidade_vendida", "SUM", None),
    Metrica("venda_liquida", "SUM", None),
    Metrica("estoque_atual", "LAST", None),
    Metrica("estoque_pdv", "LAST", Some("Estoque Preço Venda"))
  ]

  /** Entry `i` is the first of the catalogue with that name. */
  predicate FirstNamed(catalogue: seq<Metrica>, name: string, i: int) {
    0 <= i < |catalogue| && catalogue[i].nome == name
    && forall k :: 0 <= k < i ==> catalogue[k].nome != name
  }

  /** `METRICAS_DISPONIVEIS.find(m => m.nome === name)`: the first entry
      with that name. */
  function FindMetrica(catalogue: seq<Metrica>, name: string): (r: Option<Metrica>)
    ensures r.Some? ==> r.value in catalogue && r.value.nome == name
    ensures r.None? <==> forall m :: m in catalogue ==> m.nome != name
    ensures forall i :: FirstNamed(catalogue, name, i) ==> r == Some(catalogue[i])
  {
    if catalogue == [] then None
    else if catalogue[0].nome == name then Some(catalogue[0])
    else FindMetrica(catalogue[1..], name)
  }

  /** The catalogue fixes each metric's aggregation. */
  lemma CatalogueAggregations()
    ensures FindMetrica(MetricasDisponiveis, "quantidade_vendida").Some?
    ensures FindMetrica(MetricasDisponiveis, "quantidade_vendida").value.agregacao == "SUM"
    ensures FindMetrica(MetricasDisponiveis, "venda_liquida").Some?
    ensures FindMetrica(MetricasDisponiveis, "venda_liquida").value.agregacao == "SUM"
    ensures FindMetrica(MetricasDisponiveis, "estoque_atual").Some?
    ensures FindMetrica(MetricasDisponiveis, "estoque_atual").value.agregacao == "LAST"
    ensures FindMetrica(MetricasDisponiveis, "estoque_pdv").Some?
    ensures FindMetrica(MetricasDisponiveis, "estoque_pdv").value.agregacao == "LAST"
  {
    var c := MetricasDisponiveis;
    assert FirstNamed(c, "quantidade_vendida", 0);
    assert FirstNamed(c, "venda_liquida", 1);
    assert FirstNamed(c, "estoque_atual", 2);
    assert FirstNamed(c, "estoque_pdv", 3);
  }

  /** `prev.filter(d => d !== name)`. */
  function WithoutDimensao(prev: seq<string>, name: string): (r: seq<string>)
    ensures name !in r
    ensures forall x :: x != name ==> multiset(r)[x] == multiset(prev)[x]
  {
    var keep := (d: string) => d != name;
    forall x ensures multiset(Filter(prev, keep))[x] == if keep(x) then multiset(prev)[x] else 0 {
      FilterCount(prev, keep, x);
    }
    Filter(prev, keep)
  }

  /** The dimension checkbox updater: checking appends the name (without
      looking for an earlier copy), unchecking removes every copy. */
  function HandleDimensaoChange(prev: seq<string>, name: string, checked: bool): (r: seq<string>)
    ensures checked ==> r == prev + [name]
    ensures !checked ==> r == WithoutDimensao(prev, name)
  {
    if checked then prev + [name] else WithoutDimensao(prev, name)
  }

  /** Removing a name from a concatenation removes it from both parts: the
      remaining dimensions keep their order. */
  lemma {:induction false} WithoutDimensaoKeepsOrder(a: seq<string>, b: seq<string>, name: string)
    ensures WithoutDimensao(a + b, name) == WithoutDimensao(a, name) + WithoutDimensao(b, name)
  {
    FilterAppend(a, b, (d: string) => d != name);
  }

  /** Checking and then unchecking a dimension that was not selected gives back the selection. */
  lemma {:induction false} CheckThenUncheckDimensao(prev: seq<string>, name: string)
    requires name !in prev
    ensures HandleDimensaoChange(HandleDimensaoChange(prev, name, true), name, false) == prev
  {
    var keep := (d: string) => d != name;
    FilterAppend(prev, [name], keep);
    FilterAll(prev, keep);
    assert Filter([name], keep) == [];
  }

  /** `prev.filter(m => m.nome !== name)`. */
  function WithoutMetrica(prev: seq<Metrica>, name: string): (r: seq<Metrica>)
    ensures forall m :: m in r ==> m.nome != name
    ensures forall m: Metrica :: m.nome != name ==> multiset(r)[m] == multiset(prev)[m]
  {
    var keep := (m: Metrica) => m.nome != name;
    forall m: Metrica ensures multiset(Filter(prev, keep))[m] == if keep(m) then multiset(prev)[m] else 0 {
      FilterCount(prev, keep, m);
    }
    Filter(prev, keep)
  }

  /** Removing a metric from a concatenation removes it from both parts:
      the remaining metrics, and so the result columns, keep their order. */
  lemma {:induction false} WithoutMetricaKeepsOrder(a: seq<Metrica>, b: seq<Metrica>, name: string)
    ensures WithoutMetrica(a + b, name) == WithoutMetrica(a, name) + WithoutMetrica(b, name)
  {
    FilterAppend(a, b, (m: Metrica) => m.nome != name);
  }

  /** The metric checkbox updater: checking appends the catalogue entry of
      that name, unchecking removes every selected metric of that name.
      Only catalogue names reach it: the checkboxes are built from the catalogue. */
  function HandleMetricaChange(prev: seq<Metrica>, name: string, checked: bool): (r: seq<Metrica>)
    requires checked ==> FindMetrica(MetricasDisponiveis, name).Some?
    ensures checked ==> r == prev + [FindMetrica(MetricasDisponiveis, name).value]
    ensures checked ==> r[|prev|] in MetricasDisponiveis && r[|prev|].nome == name
    ensures !checked ==> r == WithoutMetrica(prev, name)
  {
    if checked then prev + [FindMetrica(MetricasDisponiveis, name).value]
    else WithoutMetrica(prev, name)
  }

  /** `setFiltros(prev => ({ ...prev, [name]: value }))`. */
  function HandleFiltroChange(prev: Filtros, name: string, value: string): (r: Filtros)
    ensures r.Keys == prev.Keys + {name}
    ensures r[name] == Some(value)
    ensures forall k :: k in prev && k != name ==> r[k] == prev[k]
  {
    prev[name := Some(value)]
  }

  /** `dimensoes.includes(dim)`. */
  predicate DimensaoChecked(dimensoes: seq<string>, dim: string) {
    dim in dimensoes
  }

  /** `metricas.some(m => m.nome === met.nome)`. */
  predicate MetricaChecked(metricas: seq<Metrica>, nome: string) {
    exists m :: m in metricas && m.nome == nome
  }

  /** A dimension box shows exactly what its last click asked for. */
  lemma DimensaoCheckboxFollowsClick(prev: seq<string>, name: string, checked: bool)
    ensures DimensaoChecked(HandleDimensaoChange(prev, name, checked), name) == checked
  {
    if checked {
      assert HandleDimensaoChange(prev, name, checked)[|prev|] == name;
    }
  }

  /** A metric box shows exactly what its last click asked for, and other boxes do not move. */
  lemma MetricaCheckboxFollowsClick(prev: seq<Metrica>, name: string, checked: bool, other: string)
    requires checked ==> FindMetrica(MetricasDisponiveis, name).Some?
    requires other != name
    ensures MetricaChecked(HandleMetricaChange(prev, name, checked), name) == checked
    ensures MetricaChecked(HandleMetricaChange(prev, name, checked), other) == MetricaChecked(prev, other)
  {
    var r := HandleMetricaChange(prev, name, checked);
    if checked {
      assert r[|prev|] in r;
      if MetricaChecked(r, other) {
        var m :| m in r && m.nome == other;
        assert m in prev;
      }
      if MetricaChecked(prev, other) {
        var m :| m in prev && m.nome == other;
        assert m in r by { assert r == prev + [r[|prev|]]; }
      }
    } else {
      if MetricaChecked(r, other) {
        var m :| m in r && m.nome == other;
        assert multiset(r)[m] == multiset(prev)[m];
        assert m in multiset(prev);
      }
      if MetricaChecked(prev, other) {
        var m :| m in prev && m.nome == other;
        assert multiset(r)[m] == multiset(prev)[m];
        assert m in multiset(r);
      }
    }
  }

  /** The label beside a dimension box: the name with spaces for underscores. */
  function DimensaoLabel(dim: string): (l: string)
    ensures |l| == |dim|
    ensures '_' !in l
    ensures forall i :: 0 <= i < |dim| && dim[i] == '_' ==> l[i] == ' '
    ensures forall i :: 0 <= i < |dim| && dim[i] != '_' ==> l[i] == dim[i]
  {
    ReplaceUnderscores(dim)
  }

  /** The label beside a metric box: `met.label || met.nome.replace(/_/g, ' ')`;
      an empty label counts as absent. */
  function MetricaLabel(m: Metrica): (l: string)
    ensures m.displayLabel.Some? && m.displayLabel.value != "" ==> l == m.displayLabel.value
    ensures (m.displayLabel.None? || m.displayLabel.value == "") ==> l == ReplaceUnderscores(m.nome)
  {
    if m.displayLabel.Some? && m.displayLabel.value != "" then m.displayLabel.value else ReplaceUnderscores(m.nome)
  }
}
