/** The alert classifier of the dashboard (`SistemaAlertas`): it keeps a
    threshold dictionary and an alert list, and on every analysis clears the
    list and rebuilds it from one day's hourly surplus values with three
    ordered rules (total balance, share of deficit hours, per-hour critical
    deficit). */
module Alertas {
  import opened Common

  /** The `tipo` of an alert. */
  datatype Tipo = Critico | Moderado | Atencao

  /** The string the source stores under `tipo`. */
  function NomeTipo(t: Tipo): string
  {
    match t
    case Critico => "critico"
    case Moderado => "moderado"
    case Atencao => "atencao"
  }

  const DEFICIT_CRITICO: string := "deficit_critico"
  const DEFICIT_MODERADO: string := "deficit_moderado"
  const HORAS_CRITICAS: string := "horas_criticas"
  const PERCENTUAL_CRITICO: string := "percentual_critico"

  /** The clock reading `datetime.now()`: seconds, and its `%H:%M` label. */
  datatype Instante = Instante(segundos: int, hhmm: string)

  datatype Alerta = Alerta(tipo: Tipo, mensagem: Mensagem, horario: string, valor: Option<real>, timestamp: int)

  /** A cell of the `Hora` column: a string, a timestamp (hour and minute),
      or anything else (which `strftime` cannot format). */
  datatype CampoHora = Texto(s: string) | Horario(h: nat, m: nat) | Outro

  /** One row of a day's frame; a field whose column the frame lacks is
      never read. `indice` is the row's pandas index label. */
  datatype Linha = Linha(indice: int, hora: CampoHora, gerado: real, consumido: real, excedente: real)

  /** A day's frame: which of the relevant columns it has, and its rows. */
  datatype Quadro = Quadro(temHora: bool, temGerado: bool, temConsumido: bool, temExcedente: bool, linhas: seq<Linha>)

  /** The dictionary `analisar_excedente` returns. Minimum, maximum and mean
      of an empty column are NaN in pandas; here they are `None`. */
  datatype Analise = Analise(
    excedenteTotal: real,
    horasDeficit: nat,
    horasSemExcedente: nat,
    percentualDeficit: real,
    menorExcedente: Option<real>,
    maiorExcedente: Option<real>,
    mediaExcedente: Option<real>)

  datatype Estatisticas = Estatisticas(total: nat, criticos: nat, moderados: nat, atencao: nat)

  /** The four panels of `gerar_recomendacoes`, highest priority first. */
  datatype Recomendacao = AcaoImediata | SugestoesMelhoria | DicasEficiencia | SistemaOtimizado

  function LimitesPadrao(): map<string, real>
  {
    map[DEFICIT_CRITICO := -2.0, DEFICIT_MODERADO := 0.0, HORAS_CRITICAS := 6.0, PERCENTUAL_CRITICO := 25.0]
  }

  /** The two thresholds the rules read are present. */
  predicate LimitesValidos(cfg: map<string, real>)
  {
    DEFICIT_CRITICO in cfg && PERCENTUAL_CRITICO in cfg
  }

  /** The record `adicionar_alerta` appends: an empty (or absent) `horario`
      falls back to the clock's label, as Python's `horario or ...` does. */
  function NovoAlerta(tipo: Tipo, mensagem: Mensagem, horario: string, valor: Option<real>, agora: Instante): (a: Alerta)
    ensures a.tipo == tipo && a.mensagem == mensagem && a.valor == valor && a.timestamp == agora.segundos
    ensures horario != "" ==> a.horario == horario
    ensures horario == "" ==> a.horario == agora.hhmm
  {
    Alerta(tipo, mensagem, if horario != "" then horario else agora.hhmm, valor, agora.segundos)
  }

  // ---------------------------------------------------------------------
  // The surplus column and the summary

  function Excedentes(linhas: seq<Linha>): (r: seq<real>)
    ensures |r| == |linhas|
    ensures forall i :: 0 <= i < |r| ==> r[i] == linhas[i].excedente
  {
    seq(|linhas|, i requires 0 <= i < |linhas| => linhas[i].excedente)
  }

  function Gerados(linhas: seq<Linha>): (r: seq<real>)
    ensures |r| == |linhas|
    ensures forall i :: 0 <= i < |r| ==> r[i] == linhas[i].gerado
  {
    seq(|linhas|, i requires 0 <= i < |linhas| => linhas[i].gerado)
  }

  function Consumidos(linhas: seq<Linha>): (r: seq<real>)
    ensures |r| == |linhas|
    ensures forall i :: 0 <= i < |r| ==> r[i] == linhas[i].consumido
  {
    seq(|linhas|, i requires 0 <= i < |linhas| => linhas[i].consumido)
  }

  /** The `Excedente (kWh)` column the analysis works on: the frame's own,
      or Gerado − Consumido (unrounded) when it has both of those, or
      nothing. */
  function ColunaExcedente(q: Quadro): (r: Option<seq<real>>)
    ensures r.Some? <==> q.temExcedente || (q.temGerado && q.temConsumido)
    ensures r.Some? ==> |r.value| == |q.linhas|
  {
    if q.temExcedente then Some(Excedentes(q.linhas))
    else if q.temGerado && q.temConsumido then Some(Diff(Gerados(q.linhas), Consumidos(q.linhas)))
    else None
  }

  /** A derived surplus column adds up to total generation minus total
      consumption, row by row and in sum. */
  lemma ExcedenteDerivado(q: Quadro)
    requires !q.temExcedente && q.temGerado && q.temConsumido
    ensures ColunaExcedente(q).Some?
    ensures forall i :: 0 <= i < |q.linhas| ==>
      ColunaExcedente(q).value[i] == q.linhas[i].gerado - q.linhas[i].consumido
    ensures Sum(ColunaExcedente(q).value) == Sum(Gerados(q.linhas)) - Sum(Consumidos(q.linhas))
  {
    SumDiff(Gerados(q.linhas), Consumidos(q.linhas));
  }

  function Min(s: seq<real>): (m: real)
    requires s != []
    ensures m in s
    ensures forall i :: 0 <= i < |s| ==> m <= s[i]
  {
    if |s| == 1 then s[0] else
      var m' := Min(s[..|s| - 1]);
      assert s[..|s| - 1][0] == s[0];
      if s[|s| - 1] < m' then s[|s| - 1] else m'
  }

  function Max(s: seq<real>): (m: real)
    requires s != []
    ensures m in s
    ensures forall i :: 0 <= i < |s| ==> s[i] <= m
  {
    if |s| == 1 then s[0] else
      var m' := Max(s[..|s| - 1]);
      if s[|s| - 1] > m' then s[|s| - 1] else m'
  }

  /** `percentual_deficit` of a surplus column. */
  function PercentualDeficit(exc: seq<real>): real
  {
    Percentual(CountBelow(exc, 0.0), |exc|)
  }

  function Resumir(exc: seq<real>): (a: Analise)
  {
    var deficit := CountBelow(exc, 0.0);
    Analise(
      Sum(exc),
      deficit,
      CountAtMost(exc, 0.0),
      PercentualDeficit(exc),
      if exc == [] then None else Some(Min(exc)),
      if exc == [] then None else Some(Max(exc)),
      if exc == [] then None else Some(Sum(exc) / |exc| as real))
  }

  /** The summary's counts nest (deficit hours are hours without surplus),
      the percentage is the share of deficit hours, and an empty day sums to
      zero with a zero percentage. */
  lemma ResumoCoerente(exc: seq<real>)
    ensures Resumir(exc).excedenteTotal == Sum(exc)
    ensures Resumir(exc).percentualDeficit == PercentualDeficit(exc)
    ensures Resumir(exc).horasDeficit <= Resumir(exc).horasSemExcedente <= |exc|
    ensures 0.0 <= PercentualDeficit(exc) <= 100.0
    ensures exc == [] ==> Sum(exc) == 0.0 && PercentualDeficit(exc) == 0.0 && Resumir(exc).horasSemExcedente == 0
    ensures Resumir(exc).horasDeficit == 0 <==> forall i :: 0 <= i < |exc| ==> exc[i] >= 0.0
    ensures Resumir(exc).horasSemExcedente == 0 <==> forall i :: 0 <= i < |exc| ==> exc[i] > 0.0
  {
    CountBelowAtMost(exc, 0.0);
    CountBelowZeroIffNone(exc, 0.0);
    CountAtMostZeroIffNone(exc, 0.0);
  }

  // ---------------------------------------------------------------------
  // The messages (f-string templates and their arguments)

  /** The f-string templates of the five messages. */
  datatype Modelo = DeficitCritico | BalancoNegativo | Equilibrio | Cobertura | Pico

  /** An alert message: its template and the values substituted into it. */
  datatype Mensagem = Mensagem(modelo: Modelo, args: seq<Arg>)

  function Texto(m: Modelo): string
  {
    match m
    case DeficitCritico => "Déficit Energético Crítico: O sistema consumiu {:.2f} kWh a mais do que gerou."
    case BalancoNegativo => "Balanço Negativo: Déficit leve de {:.2f} kWh."
    case Equilibrio => "Equilíbrio Estático: Sem excedente para armazenamento."
    case Cobertura => "Cobertura Insuficiente: {:.1f}% do tempo operando com déficit."
    case Pico => "Pico de Consumo às {}: Déficit de {:.2f} kWh"
  }

  function MsgDeficitCritico(total: real): Mensagem
  {
    Mensagem(DeficitCritico, [Num(Abs(total))])
  }

  function MsgBalancoNegativo(total: real): Mensagem
  {
    Mensagem(BalancoNegativo, [Num(Abs(total))])
  }

  function MsgEquilibrio(): Mensagem
  {
    Mensagem(Equilibrio, [])
  }

  function MsgCobertura(percentual: real): Mensagem
  {
    Mensagem(Cobertura, [Num(percentual)])
  }

  function MsgPico(hora: string, excedente: real): Mensagem
  {
    Mensagem(Pico, [Str(hora), Num(excedente)])
  }

  // ---------------------------------------------------------------------
  // The three rules

  /** Rule 1, on the day's total: at most one alert. */
  function AlertaTotal(total: real, deficitCritico: real, agora: Instante): seq<Alerta>
  {
    if total < deficitCritico then
      [NovoAlerta(Critico, MsgDeficitCritico(total), "", Some(total), agora)]
    else if total < 0.0 then
      [NovoAlerta(Moderado, MsgBalancoNegativo(total), "", Some(total), agora)]
    else if total == 0.0 then
      [NovoAlerta(Atencao, MsgEquilibrio(), "", Some(total), agora)]
    else []
  }

  /** Rule 2, on the share of deficit hours: at most one alert. */
  function AlertaDuracao(percentual: real, percentualCritico: real, agora: Instante): seq<Alerta>
  {
    if percentual > percentualCritico then
      [NovoAlerta(Critico, MsgCobertura(percentual), "", Some(percentual), agora)]
    else []
  }

  /** The hour label of a row: the `Hora` string as is, a timestamp as
      `%H:%M`, and `str(index)` when there is no `Hora` column or its cell
      cannot be formatted. */
  function RotuloHora(temHora: bool, linha: Linha): string
  {
    if !temHora then IntToString(linha.indice)
    else match linha.hora
      case Texto(s) => s
      case Horario(h, m) => Pad2(h) + ":" + Pad2(m)
      case Outro => IntToString(linha.indice)
  }

  function AlertaHorario(hora: string, excedente: real, agora: Instante): Alerta
  {
    NovoAlerta(Critico, MsgPico(hora, excedente), hora, Some(excedente), agora)
  }

  /** Rule 3, row by row in frame order: one critical alert for each row
      whose surplus is below the critical deficit. */
  function AlertasHorarios(temHora: bool, linhas: seq<Linha>, exc: seq<real>, deficitCritico: real, agora: Instante): seq<Alerta>
    requires |linhas| == |exc|
  {
    if linhas == [] then [] else
      var n := |linhas| - 1;
      AlertasHorarios(temHora, linhas[..n], exc[..n], deficitCritico, agora)
      + (if exc[n] < deficitCritico then [AlertaHorario(RotuloHora(temHora, linhas[n]), exc[n], agora)] else [])
  }

  /** One more row extends the per-hour alerts of the rows before it. */
  lemma AlertasHorariosPasso(temHora: bool, linhas: seq<Linha>, exc: seq<real>, dc: real, agora: Instante, i: nat)
    requires |linhas| == |exc| && i < |linhas|
    ensures AlertasHorarios(temHora, linhas[..i + 1], exc[..i + 1], dc, agora)
      == AlertasHorarios(temHora, linhas[..i], exc[..i], dc, agora)
         + (if exc[i] < dc then [AlertaHorario(RotuloHora(temHora, linhas[i]), exc[i], agora)] else [])
  {
    assert linhas[..i + 1][..i] == linhas[..i];
    assert exc[..i + 1][..i] == exc[..i];
  }

  /** The alert list one analysis leaves behind. */
  function AlertasDoDia(q: Quadro, exc: seq<real>, cfg: map<string, real>, agora: Instante): seq<Alerta>
    requires |exc| == |q.linhas|
    requires LimitesValidos(cfg)
  {
    AlertaTotal(Sum(exc), cfg[DEFICIT_CRITICO], agora)
    + AlertaDuracao(PercentualDeficit(exc), cfg[PERCENTUAL_CRITICO], agora)
    + AlertasHorarios(q.temHora, q.linhas, exc, cfg[DEFICIT_CRITICO], agora)
  }

  // ---------------------------------------------------------------------
  // What the rules promise

  /** The total-balance rule classifies the total in four bands, and the
      band fixes the one alert it emits (or none). */
  lemma RegraTotal(total: real, dc: real, agora: Instante)
    requires dc <= 0.0
    ensures var r := AlertaTotal(total, dc, agora);
      && |r| <= 1
      && (total < dc <==> |r| == 1 && r[0].tipo == Critico)
      && (dc <= total < 0.0 <==> |r| == 1 && r[0].tipo == Moderado)
      && (total == 0.0 <==> |r| == 1 && r[0].tipo == Atencao)
      && (total > 0.0 <==> r == [])
      && (r != [] ==> r[0].valor == Some(total) && r[0].horario == agora.hhmm)
  {
  }

  /** With a critical deficit above zero the critical band swallows the
      zero total: the alert is critical, not "static equilibrium". */
  lemma RegraTotalLimitePositivo(dc: real, agora: Instante)
    requires dc > 0.0
    ensures AlertaTotal(0.0, dc, agora)[0].tipo == Critico
  {
  }

  /** The duration rule fires exactly when the share is strictly above the
      configured percentage. */
  lemma RegraDuracao(pct: real, pc: real, agora: Instante)
    ensures var r := AlertaDuracao(pct, pc, agora);
      && (pct > pc <==> |r| == 1)
      && (r != [] ==> r[0].tipo == Critico && r[0].valor == Some(pct))
      && (pct <= pc <==> r == [])
  {
  }

  /** Rule 3 emits one alert per row strictly below the threshold, and each
      of its alerts is critical and carries a value below the threshold. */
  lemma {:induction false} RegraHoraria(temHora: bool, linhas: seq<Linha>, exc: seq<real>, dc: real, agora: Instante)
    requires |linhas| == |exc|
    ensures var r := AlertasHorarios(temHora, linhas, exc, dc, agora);
      && |r| == CountBelow(exc, dc)
      && forall k :: 0 <= k < |r| ==> r[k].tipo == Critico && r[k].valor.Some? && r[k].valor.value < dc
    decreases |linhas|
  {
    if linhas != [] {
      var n := |linhas| - 1;
      RegraHoraria(temHora, linhas[..n], exc[..n], dc, agora);
      assert exc[..n] == exc[..|exc| - 1];
    }
  }

  /** Every row below the threshold has its own alert, tagged with the
      row's hour label and surplus. */
  lemma {:induction false} RegraHorariaCobre(temHora: bool, linhas: seq<Linha>, exc: seq<real>, dc: real, agora: Instante, i: nat)
    requires |linhas| == |exc|
    requires i < |linhas| && exc[i] < dc
    ensures AlertaHorario(RotuloHora(temHora, linhas[i]), exc[i], agora) in AlertasHorarios(temHora, linhas, exc, dc, agora)
    decreases |linhas|
  {
    var n := |linhas| - 1;
    var x := AlertaHorario(RotuloHora(temHora, linhas[i]), exc[i], agora);
    var p := AlertasHorarios(temHora, linhas[..n], exc[..n], dc, agora);
    var e := if exc[n] < dc then [AlertaHorario(RotuloHora(temHora, linhas[n]), exc[n], agora)] else [];
    assert AlertasHorarios(temHora, linhas, exc, dc, agora) == p + e;
    if i < n {
      RegraHorariaCobre(temHora, linhas[..n], exc[..n], dc, agora, i);
      assert x in p;
    } else {
      assert x in e;
    }
  }

  /** Lowering the critical deficit never adds per-hour alerts. */
  lemma RegraHorariaMonotona(temHora: bool, linhas: seq<Linha>, exc: seq<real>, dc: real, dc': real, agora: Instante)
    requires |linhas| == |exc|
    requires dc' <= dc
    ensures |AlertasHorarios(temHora, linhas, exc, dc', agora)| <= |AlertasHorarios(temHora, linhas, exc, dc, agora)|
  {
    RegraHoraria(temHora, linhas, exc, dc, agora);
    RegraHoraria(temHora, linhas, exc, dc', agora);
    CountBelowMonotone(exc, dc, dc');
  }

  /** The list one analysis produces: the total-balance alert (if any)
      comes first, the duration alert (if any) next, then the per-hour
      alerts; so at most two more alerts than rows, all of them of one of
      the three known kinds. An empty day yields exactly one "atencao"
      alert (with a non-negative percentage threshold). */
  lemma AlertasDoDiaForma(q: Quadro, exc: seq<real>, cfg: map<string, real>, agora: Instante)
    requires |exc| == |q.linhas| && LimitesValidos(cfg)
    requires cfg[DEFICIT_CRITICO] <= 0.0
    ensures |AlertasDoDia(q, exc, cfg, agora)| ==
      (if Sum(exc) <= 0.0 then 1 else 0)
      + (if PercentualDeficit(exc) > cfg[PERCENTUAL_CRITICO] then 1 else 0)
      + CountBelow(exc, cfg[DEFICIT_CRITICO])
    ensures |AlertasDoDia(q, exc, cfg, agora)| <= |exc| + 2
    ensures exc == [] && cfg[PERCENTUAL_CRITICO] >= 0.0 ==>
      |AlertasDoDia(q, exc, cfg, agora)| == 1 && AlertasDoDia(q, exc, cfg, agora)[0].tipo == Atencao
  {
    var dc := cfg[DEFICIT_CRITICO];
    var t := AlertaTotal(Sum(exc), dc, agora);
    var d := AlertaDuracao(PercentualDeficit(exc), cfg[PERCENTUAL_CRITICO], agora);
    var h := AlertasHorarios(q.temHora, q.linhas, exc, dc, agora);
    var r := AlertasDoDia(q, exc, cfg, agora);
    assert r == t + d + h;
    RegraTotal(Sum(exc), dc, agora);
    RegraDuracao(PercentualDeficit(exc), cfg[PERCENTUAL_CRITICO], agora);
    RegraHoraria(q.temHora, q.linhas, exc, dc, agora);
    ResumoCoerente(exc);
    if exc == [] {
      assert h == [];
    }
  }

  /** Only `deficit_critico` and `percentual_critico` are read by the rules:
      two configurations that agree on them give the same alerts, whatever
      `deficit_moderado` and `horas_criticas` say. */
  lemma LimitesLidos(q: Quadro, exc: seq<real>, cfg: map<string, real>, cfg': map<string, real>, agora: Instante)
    requires |exc| == |q.linhas| && LimitesValidos(cfg) && LimitesValidos(cfg')
    requires cfg[DEFICIT_CRITICO] == cfg'[DEFICIT_CRITICO]
    requires cfg[PERCENTUAL_CRITICO] == cfg'[PERCENTUAL_CRITICO]
    ensures AlertasDoDia(q, exc, cfg, agora) == AlertasDoDia(q, exc, cfg', agora)
  {
  }

  /** An alert without the moment it was raised. */
  datatype Conteudo = Conteudo(tipo: Tipo, mensagem: Mensagem, valor: Option<real>)

  function Conteudos(s: seq<Alerta>): (r: seq<Conteudo>)
    ensures |r| == |s|
  {
    seq(|s|, k requires 0 <= k < |s| => Conteudo(s[k].tipo, s[k].mensagem, s[k].valor))
  }

  /** Re-analysing the same rows with the same thresholds at another moment
      yields the same kinds, messages and values in the same order: only
      the timestamps and the clock labels change. */
  lemma ReanaliseEstavel(q: Quadro, exc: seq<real>, cfg: map<string, real>, agora: Instante, depois: Instante)
    requires |exc| == |q.linhas| && LimitesValidos(cfg)
    ensures Conteudos(AlertasDoDia(q, exc, cfg, agora)) == Conteudos(AlertasDoDia(q, exc, cfg, depois))
  {
    var dc := cfg[DEFICIT_CRITICO];
    var t := AlertaTotal(Sum(exc), dc, agora);
    var t' := AlertaTotal(Sum(exc), dc, depois);
    var d := AlertaDuracao(PercentualDeficit(exc), cfg[PERCENTUAL_CRITICO], agora);
    var d' := AlertaDuracao(PercentualDeficit(exc), cfg[PERCENTUAL_CRITICO], depois);
    var h := AlertasHorarios(q.temHora, q.linhas, exc, dc, agora);
    var h' := AlertasHorarios(q.temHora, q.linhas, exc, dc, depois);
    RegrasEstaveis(Sum(exc), PercentualDeficit(exc), dc, cfg[PERCENTUAL_CRITICO], agora, depois);
    HorariosEstaveis(q.temHora, q.linhas, exc, dc, agora, depois);
    assert AlertasDoDia(q, exc, cfg, agora) == (t + d) + h;
    assert AlertasDoDia(q, exc, cfg, depois) == (t' + d') + h';
    ConteudosConcat(t, d);
    ConteudosConcat(t', d');
    ConteudosConcat(t + d, h);
    ConteudosConcat(t' + d', h');
  }

  /** The first two rules depend on the clock only through the timestamp
      and the clock label. */
  lemma RegrasEstaveis(total: real, pct: real, dc: real, pc: real, agora: Instante, depois: Instante)
    ensures Conteudos(AlertaTotal(total, dc, agora)) == Conteudos(AlertaTotal(total, dc, depois))
    ensures Conteudos(AlertaDuracao(pct, pc, agora)) == Conteudos(AlertaDuracao(pct, pc, depois))
  {
  }

  lemma ConteudosConcat(s: seq<Alerta>, t: seq<Alerta>)
    ensures Conteudos(s + t) == Conteudos(s) + Conteudos(t)
  {
  }

  /** The per-hour alerts do not depend on the clock apart from their
      timestamps, and keep their hour labels when no label is empty. */
  lemma {:induction false} HorariosEstaveis(temHora: bool, linhas: seq<Linha>, exc: seq<real>, dc: real, agora: Instante, depois: Instante)
    requires |linhas| == |exc|
    ensures var h := AlertasHorarios(temHora, linhas, exc, dc, agora);
      var h' := AlertasHorarios(temHora, linhas, exc, dc, depois);
      && Conteudos(h) == Conteudos(h')
      && ((forall i :: 0 <= i < |linhas| ==> RotuloHora(temHora, linhas[i]) != "") ==>
            forall k :: 0 <= k < |h| ==> h[k].horario == h'[k].horario)
    decreases |linhas|
  {
    if linhas != [] {
      var n := |linhas| - 1;
      HorariosEstaveis(temHora, linhas[..n], exc[..n], dc, agora, depois);
      var p := AlertasHorarios(temHora, linhas[..n], exc[..n], dc, agora);
      var p' := AlertasHorarios(temHora, linhas[..n], exc[..n], dc, depois);
      var e := if exc[n] < dc then [AlertaHorario(RotuloHora(temHora, linhas[n]), exc[n], agora)] else [];
      var e' := if exc[n] < dc then [AlertaHorario(RotuloHora(temHora, linhas[n]), exc[n], depois)] else [];
      ConteudosConcat(p, e);
      ConteudosConcat(p', e');
    }
  }

  // ---------------------------------------------------------------------
  // Reading the list: statistics, display filter, recommendation

  function ContarTipo(s: seq<Alerta>, tipo: Tipo): (k: nat)
    ensures k <= |s|
  {
    if s == [] then 0 else ContarTipo(s[..|s| - 1], tipo) + (if s[|s| - 1].tipo == tipo then 1 else 0)
  }

  lemma {:induction false} ContarTipoPositivo(s: seq<Alerta>, tipo: Tipo)
    ensures ContarTipo(s, tipo) > 0 <==> exists k :: 0 <= k < |s| && s[k].tipo == tipo
    decreases |s|
  {
    if s != [] {
      var n := |s| - 1;
      ContarTipoPositivo(s[..n], tipo);
      assert forall k :: 0 <= k < n ==> s[..n][k] == s[k];
    }
  }

  /** Every alert is of exactly one of the three kinds, so the three
      counts add up to the length of the list. */
  lemma {:induction false} ContagensSomam(s: seq<Alerta>)
    ensures ContarTipo(s, Critico) + ContarTipo(s, Moderado) + ContarTipo(s, Atencao) == |s|
    decreases |s|
  {
    if s != [] {
      var n := |s| - 1;
      ContagensSomam(s[..n]);
      assert forall k :: 0 <= k < n ==> s[..n][k] == s[k];
    }
  }

  /** `[a for a in alertas if a['tipo'] in tipos]`: order kept. */
  function FiltrarTipos(s: seq<Alerta>, tipos: set<Tipo>): (r: seq<Alerta>)
    ensures |r| <= |s|
    ensures forall a :: a in r <==> a in s && a.tipo in tipos
  {
    if s == [] then [] else
      FiltrarTipos(s[..|s| - 1], tipos) + (if s[|s| - 1].tipo in tipos then [s[|s| - 1]] else [])
  }

  /** The filter keeps the list's order and every selected alert, repeated
      ones included: it distributes over concatenation. */
  lemma {:induction false} FiltrarTiposConcat(a: seq<Alerta>, b: seq<Alerta>, tipos: set<Tipo>)
    ensures FiltrarTipos(a + b, tipos) == FiltrarTipos(a, tipos) + FiltrarTipos(b, tipos)
    decreases |b|
  {
    if b == [] {
      assert a + b == a;
    } else {
      var n := |b| - 1;
      var ultimo := if b[n].tipo in tipos then [b[n]] else [];
      assert (a + b)[..|a + b| - 1] == a + b[..n];
      assert (a + b)[|a + b| - 1] == b[n];
      calc {
        FiltrarTipos(a + b, tipos);
        FiltrarTipos(a + b[..n], tipos) + ultimo;
        { FiltrarTiposConcat(a, b[..n], tipos); }
        FiltrarTipos(a, tipos) + FiltrarTipos(b[..n], tipos) + ultimo;
        FiltrarTipos(a, tipos) + FiltrarTipos(b, tipos);
      }
    }
  }

  lemma {:induction false} FiltrarTiposConta(s: seq<Alerta>, tipo: Tipo)
    ensures |FiltrarTipos(s, {tipo})| == ContarTipo(s, tipo)
    decreases |s|
  {
    if s != [] { FiltrarTiposConta(s[..|s| - 1], tipo); }
  }

  /** The quick filter of `exibir_alertas`: "Apenas Críticos" keeps the
      critical alerts, "Críticos e Moderados" the critical and moderate
      ones, any other choice the whole list. */
  function FiltrarVisualizacao(s: seq<Alerta>, filtro: string): (r: seq<Alerta>)
    ensures filtro == "Apenas Críticos" ==> |r| == ContarTipo(s, Critico) && forall a :: a in r <==> a in s && a.tipo == Critico
    ensures filtro == "Críticos e Moderados" ==> forall a :: a in r <==> a in s && a.tipo in {Critico, Moderado}
    ensures filtro != "Apenas Críticos" && filtro != "Críticos e Moderados" ==> r == s
  {
    if filtro == "Apenas Críticos" then
      FiltrarTiposConta(s, Critico);
      FiltrarTipos(s, {Critico})
    else if filtro == "Críticos e Moderados" then FiltrarTipos(s, {Critico, Moderado})
    else s
  }

  /** The panel `gerar_recomendacoes` shows, in priority order; a missing
      analysis (the `{}` of a frame without surplus data) reads as zero hours
      without surplus. */
  function EscolherRecomendacao(s: seq<Alerta>, analise: Option<Analise>): (r: Recomendacao)
    ensures r == AcaoImediata <==> ContarTipo(s, Critico) > 0
    ensures r == SugestoesMelhoria <==> ContarTipo(s, Critico) == 0 && ContarTipo(s, Moderado) > 0
    ensures r == SistemaOtimizado <==>
      ContarTipo(s, Critico) == 0 && ContarTipo(s, Moderado) == 0 && (analise.None? || analise.value.horasSemExcedente == 0)
  {
    if ContarTipo(s, Critico) > 0 then AcaoImediata
    else if ContarTipo(s, Moderado) > 0 then SugestoesMelhoria
    else if analise.Some? && analise.value.horasSemExcedente > 0 then DicasEficiencia
    else SistemaOtimizado
  }

  /** The recommendation for one analysed day. */
  function RecomendacaoDoDia(q: Quadro, exc: seq<real>, cfg: map<string, real>, agora: Instante): Recomendacao
    requires |exc| == |q.linhas| && LimitesValidos(cfg)
  {
    EscolherRecomendacao(AlertasDoDia(q, exc, cfg, agora), Some(Resumir(exc)))
  }

  /** A negative total always asks for action or for improvements. */
  lemma RecomendacaoDeficit(q: Quadro, exc: seq<real>, cfg: map<string, real>, agora: Instante)
    requires |exc| == |q.linhas| && LimitesValidos(cfg)
    requires Sum(exc) < 0.0
    ensures RecomendacaoDoDia(q, exc, cfg, agora) in {AcaoImediata, SugestoesMelhoria}
  {
    var s := AlertasDoDia(q, exc, cfg, agora);
    var t := AlertaTotal(Sum(exc), cfg[DEFICIT_CRITICO], agora);
    assert s[0] == t[0];
    ContarTipoPositivo(s, Critico);
    ContarTipoPositivo(s, Moderado);
  }

  lemma ElementoDaCauda(a: seq<Alerta>, b: seq<Alerta>, k: nat)
    requires k < |b|
    ensures (a + b)[|a| + k] == b[k]
  {
  }

  /** A single row below the critical deficit asks for immediate action. */
  lemma RecomendacaoCritica(q: Quadro, exc: seq<real>, cfg: map<string, real>, agora: Instante, i: nat)
    requires |exc| == |q.linhas| && LimitesValidos(cfg)
    requires i < |exc| && exc[i] < cfg[DEFICIT_CRITICO]
    ensures RecomendacaoDoDia(q, exc, cfg, agora) == AcaoImediata
  {
    var dc := cfg[DEFICIT_CRITICO];
    var s := AlertasDoDia(q, exc, cfg, agora);
    var t := AlertaTotal(Sum(exc), dc, agora);
    var d := AlertaDuracao(PercentualDeficit(exc), cfg[PERCENTUAL_CRITICO], agora);
    var h := AlertasHorarios(q.temHora, q.linhas, exc, dc, agora);
    assert s == (t + d) + h;
    RegraHorariaCobre(q.temHora, q.linhas, exc, dc, agora, i);
    var x := AlertaHorario(RotuloHora(q.temHora, q.linhas[i]), exc[i], agora);
    var k :| 0 <= k < |h| && h[k] == x;
    ElementoDaCauda(t + d, h, k);
    assert s[|t + d| + k].tipo == Critico;
    ContarTipoPositivo(s, Critico);
  }

  /** "Optimised" is shown only for a day with a surplus every hour. */
  lemma RecomendacaoOtimizadaSoComExcedente(q: Quadro, exc: seq<real>, cfg: map<string, real>, agora: Instante)
    requires |exc| == |q.linhas| && LimitesValidos(cfg)
    requires RecomendacaoDoDia(q, exc, cfg, agora) == SistemaOtimizado
    ensures forall i :: 0 <= i < |exc| ==> exc[i] > 0.0
  {
    CountAtMostZeroIffNone(exc, 0.0);
  }

  /** Conversely, a non-empty day with a surplus every hour is "optimised"
      under a non-negative percentage threshold and a non-positive deficit
      threshold. */
  lemma RecomendacaoOtimizada(q: Quadro, exc: seq<real>, cfg: map<string, real>, agora: Instante)
    requires |exc| == |q.linhas| && LimitesValidos(cfg)
    requires cfg[DEFICIT_CRITICO] <= 0.0 && cfg[PERCENTUAL_CRITICO] >= 0.0
    requires exc != [] && forall i :: 0 <= i < |exc| ==> exc[i] > 0.0
    ensures RecomendacaoDoDia(q, exc, cfg, agora) == SistemaOtimizado
  {
    var dc := cfg[DEFICIT_CRITICO];
    SumPositive(exc);
    assert AlertaTotal(Sum(exc), dc, agora) == [];
    CountBelowZeroIffNone(exc, 0.0);
    assert PercentualDeficit(exc) == 0.0;
    assert AlertaDuracao(PercentualDeficit(exc), cfg[PERCENTUAL_CRITICO], agora) == [];
    CountBelowZeroIffNone(exc, dc);
    RegraHoraria(q.temHora, q.linhas, exc, dc, agora);
    assert AlertasHorarios(q.temHora, q.linhas, exc, dc, agora) == [];
    assert AlertasDoDia(q, exc, cfg, agora) == [];
    CountAtMostZeroIffNone(exc, 0.0);
    assert Resumir(exc).horasSemExcedente == 0;
  }

  // ---------------------------------------------------------------------
  // The classifier object

  class SistemaAlertas {
    var alertas: seq<Alerta>
    var configuracoes: map<string, real>

    ghost predicate Valid()
      reads this
    {
      LimitesValidos(configuracoes)
    }

    constructor ()
      ensures Valid()
      ensures alertas == [] && configuracoes == LimitesPadrao()
    {
      alertas := [];
      configuracoes := LimitesPadrao();
    }

    /** `adicionar_alerta`: appends exactly one record. */
    method AdicionarAlerta(tipo: Tipo, mensagem: Mensagem, horario: string, valor: Option<real>, agora: Instante)
      modifies this`alertas
      ensures alertas == old(alertas) + [NovoAlerta(tipo, mensagem, horario, valor, agora)]
    {
      var alerta := Alerta(tipo, mensagem, if horario != "" then horario else agora.hhmm, valor, agora.segundos);
      alertas := alertas + [alerta];
    }

    /** `analisar_excedente`: a frame without surplus data and without one
        of Gerado/Consumido gives `{}` and leaves the alert list alone;
        otherwise the summary is returned and the list rebuilt. */
    method AnalisarExcedente(dados: Quadro, agora: Instante) returns (analise: Option<Analise>)
      requires Valid()
      modifies this`alertas
      ensures Valid()
      ensures ColunaExcedente(dados).None? ==> analise == None && alertas == old(alertas)
      ensures ColunaExcedente(dados).Some? ==>
        analise == Some(Resumir(ColunaExcedente(dados).value))
        && alertas == AlertasDoDia(dados, ColunaExcedente(dados).value, configuracoes, agora)
    {
      var coluna := ColunaExcedente(dados);
      if coluna.None? {
        return None;
      }
      var exc := coluna.value;
      var resumo := Resumir(exc);
      GerarAlertasExcedente(dados, exc, resumo, agora);
      analise := Some(resumo);
    }

    /** `_gerar_alertas_excedente`: clear the list, then apply the three
        rules in order. */
    method GerarAlertasExcedente(dados: Quadro, exc: seq<real>, analise: Analise, agora: Instante)
      requires Valid()
      requires |exc| == |dados.linhas|
      modifies this`alertas
      ensures alertas ==
        AlertaTotal(analise.excedenteTotal, configuracoes[DEFICIT_CRITICO], agora)
        + AlertaDuracao(analise.percentualDeficit, configuracoes[PERCENTUAL_CRITICO], agora)
        + AlertasHorarios(dados.temHora, dados.linhas, exc, configuracoes[DEFICIT_CRITICO], agora)
    {
      var dc := configuracoes[DEFICIT_CRITICO];
      alertas := [];

      var total := analise.excedenteTotal;
      if total < dc {
        AdicionarAlerta(Critico, MsgDeficitCritico(total), "", Some(total), agora);
      } else if total < 0.0 {
        AdicionarAlerta(Moderado, MsgBalancoNegativo(total), "", Some(total), agora);
      } else if total == 0.0 {
        AdicionarAlerta(Atencao, MsgEquilibrio(), "", Some(total), agora);
      }

      assert alertas == AlertaTotal(total, dc, agora);

      var pct := analise.percentualDeficit;
      if pct > configuracoes[PERCENTUAL_CRITICO] {
        AdicionarAlerta(Critico, MsgCobertura(pct), "", Some(pct), agora);
      }
      assert alertas == AlertaTotal(total, dc, agora) + AlertaDuracao(pct, configuracoes[PERCENTUAL_CRITICO], agora);

      AnalisePontual(dados, exc, dc, agora);
    }

    /** Rule 3 of `_gerar_alertas_excedente`, the loop over the rows:
        appends one critical alert per row below the critical deficit, in
        row order. */
    method AnalisePontual(dados: Quadro, exc: seq<real>, dc: real, agora: Instante)
      requires |exc| == |dados.linhas|
      modifies this`alertas
      ensures alertas == old(alertas) + AlertasHorarios(dados.temHora, dados.linhas, exc, dc, agora)
    {
      var linhas := dados.linhas;
      var i := 0;
      ghost var feitos: seq<Alerta> := [];
      while i < |linhas|
        invariant 0 <= i <= |linhas|
        invariant feitos == AlertasHorarios(dados.temHora, linhas[..i], exc[..i], dc, agora)
        invariant alertas == old(alertas) + feitos
      {
        var hora := RotuloHora(dados.temHora, linhas[i]);
        var excedente := exc[i];
        ghost var novo := if excedente < dc then [AlertaHorario(hora, excedente, agora)] else [];
        if excedente < dc {
          AdicionarAlerta(Critico, MsgPico(hora, excedente), hora, Some(excedente), agora);
        }
        assert alertas == old(alertas) + (feitos + novo);
        AlertasHorariosPasso(dados.temHora, linhas, exc, dc, agora, i);
        feitos := feitos + novo;
        i := i + 1;
      }
      assert linhas[..i] == linhas;
      assert exc[..i] == exc;
    }

    /** `configurar_limites(**kwargs)`: the given keys are overwritten, the
        others kept. */
    method ConfigurarLimites(kwargs: map<string, real>)
      requires Valid()
      modifies this`configuracoes
      ensures Valid()
      ensures configuracoes == old(configuracoes) + kwargs
      ensures forall k :: k in kwargs ==> configuracoes[k] == kwargs[k]
      ensures forall k :: k in old(configuracoes) && k !in kwargs ==> configuracoes[k] == old(configuracoes)[k]
    {
      configuracoes := configuracoes + kwargs;
    }

    /** `get_estatisticas`: the alert list counted by kind. */
    function GetEstatisticas(): (e: Estatisticas)
      reads this
      ensures e.total == |alertas|
      ensures e.criticos + e.moderados + e.atencao == e.total
      ensures e.criticos == |FiltrarTipos(alertas, {Critico})|
    {
      ContagensSomam(alertas);
      FiltrarTiposConta(alertas, Critico);
      Estatisticas(|alertas|, ContarTipo(alertas, Critico), ContarTipo(alertas, Moderado), ContarTipo(alertas, Atencao))
    }
  }

  /** The list is cleared before every rebuild: analysing the same frame
      twice at the same moment leaves the same list both times. */
  method AnalisarDuasVezes(s: SistemaAlertas, dados: Quadro, agora: Instante) returns (primeira: seq<Alerta>, segunda: seq<Alerta>)
    requires s.Valid()
    modifies s
    ensures primeira == segunda
  {
    var _ := s.AnalisarExcedente(dados, agora);
    primeira := s.alertas;
    var _ := s.AnalisarExcedente(dados, agora);
    segunda := s.alertas;
  }
}
