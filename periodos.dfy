/** The period choices of the report and export pages: how a period label
    becomes a number of days, and which generator the report page calls. */
module Periodos {
  import opened Common
  import PaginaAlertas
  import Metricas

  /** The report page's period selector (lines 63-77 of the page). A
      custom period carries its two dates as day numbers. */
  datatype Intervalo = Ultimos7 | Ultimos30 | Ultimos90 | Personalizado(inicio: int, fim: int)

  /** The label shown for a preset period. */
  function Rotulo(p: Intervalo): string
    requires !p.Personalizado?
  {
    match p
    case Ultimos7 => "Últimos 7 dias"
    case Ultimos30 => "Últimos 30 dias"
    case Ultimos90 => "Últimos 90 dias"
  }

  /** Days requested by the report page: the preset's count, or
      `(fim - inicio).days` for a custom period, which does not count
      both ends (the alerts page does, see `PaginaAlertas.NumDias`). */
  function DiasDoIntervalo(p: Intervalo): (d: int)
    ensures !p.Personalizado? ==> d == 7 || d == 30 || d == 90
    ensures p.Personalizado? ==> d == PaginaAlertas.NumDias(p.inicio, p.fim) - 1
  {
    match p
    case Ultimos7 => 7
    case Ultimos30 => 30
    case Ultimos90 => 90
    case Personalizado(inicio, fim) => fim - inicio
  }

  /** A custom report from `inicio` to `fim` holds one day fewer than the
      alerts page shows for the same two dates: its rows run from
      `hoje - (fim - inicio)` to yesterday. An end before the start makes
      the generator fail. */
  lemma PersonalizadoUmDiaAMenos(inicio: int, fim: int, hoje: int, sorteio: nat -> (real, real, real))
    ensures var d := DiasDoIntervalo(Personalizado(inicio, fim));
      var r := Metricas.GerarDadosRelatorio(d, hoje, sorteio);
      && (fim < inicio <==> r.None?)
      && (r.Some? ==> |r.value| + 1 == PaginaAlertas.NumDias(inicio, fim))
      && (r.Some? && fim > inicio ==> r.value[0].data == hoje - (fim - inicio))
  {
    var d := DiasDoIntervalo(Personalizado(inicio, fim));
    if d >= 0 {
      Metricas.RelatorioForma(d, hoje, sorteio);
    }
  }

  /** The data source of the report page: twelve monthly periods for the
      monthly comparison, otherwise the daily report for the stored day
      count (30 when none is stored). */
  datatype Fonte = Mensal(meses: nat) | Diario(dias: int)

  function FonteDoRelatorio(tipo: string, diasSessao: Option<int>): (f: Fonte)
    ensures f.Mensal? <==> tipo == "Comparativo Mensal"
    ensures f.Mensal? ==> f.meses == 12
    ensures f.Diario? && diasSessao.None? ==> f.dias == 30
    ensures f.Diario? && diasSessao.Some? ==> f.dias == diasSessao.value
  {
    if tipo == "Comparativo Mensal" then Mensal(12)
    else Diario(if diasSessao.Some? then diasSessao.value else 30)
  }

  /** The button of the report page stores the chosen period's day count,
      so every report type but the monthly one loads that many days. */
  lemma FonteDoIntervalo(tipo: string, p: Intervalo)
    requires tipo != "Comparativo Mensal"
    ensures FonteDoRelatorio(tipo, Some(DiasDoIntervalo(p))) == Diario(DiasDoIntervalo(p))
    ensures !p.Personalizado? ==> FonteDoRelatorio(tipo, Some(DiasDoIntervalo(p))).dias > 0
  {
  }

  /** The export page's `dias_map` (lines 83-89). */
  function MapaDias(): map<string, nat>
  {
    map["Últimos 7 dias" := 7, "Últimos 30 dias" := 30, "Últimos 90 dias" := 90, "Todo o Histórico" := 3650]
  }

  /** `dias_map.get(periodo, 30)`. */
  function DiasExportacao(rotulo: string): (d: nat)
    ensures d == 7 || d == 30 || d == 90 || d == 3650
    ensures rotulo !in MapaDias() ==> d == 30
  {
    if rotulo in MapaDias() then MapaDias()[rotulo] else 30
  }

  /** The export page agrees with the report page on the three presets
      they share, and its fourth label asks for ten years of days. */
  lemma ExportacaoConcordaComRelatorio(p: Intervalo)
    requires !p.Personalizado?
    ensures DiasExportacao(Rotulo(p)) == DiasDoIntervalo(p)
    ensures DiasExportacao("Todo o Histórico") == 3650
  {
  }
}
