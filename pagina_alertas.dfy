/** The alert centre page: the hourly history it generates for a period,
    the per-hour status column and bar colours of the detail tab, the
    overview loop over the available dates, the alert history built from a
    fresh classifier per date, and the alert-list filter. Dates are day
    numbers (consecutive days differ by one). */
module PaginaAlertas {
  import opened Common
  import opened Alertas

  /** A row of the generated history: day, hour of the day and the rounded
      readings. */
  datatype Registro = Registro(data: int, hora: nat, gerado: real, consumido: real, excedente: real)

  /** An alert of the history tab, tagged with the date it was raised for. */
  datatype AlertaDatado = AlertaDatado(data: int, alerta: Alerta)

  /** An entry of the overview's `analise_diaria`. */
  datatype AnaliseDatada = AnaliseDatada(data: int, analise: Analise)

  datatype Status = StatusCritico | StatusDeficit | StatusNormal

  datatype Cor = Vermelho | Laranja | Verde

  /** `(data_fim - data_inicio).days + 1`: the period includes both ends. */
  function NumDias(inicio: int, fim: int): (n: int)
    ensures fim >= inicio ==> n == fim - inicio + 1 && n >= 1
  {
    fim - inicio + 1
  }

  // ---------------------------------------------------------------------
  // The generated history

  function Maior(a: real, b: real): real { if a >= b then a else b }

  /** The 24 rows of one day. `sorteio(dia, hora)` stands for the random
      draws: the raw generation and the raw consumption pattern of that
      hour. Consumption is floored at 0.5 kWh, both readings are rounded to
      two decimals and the surplus is their rounded difference. */
  function LinhasDoDia(data: int, dia: nat, sorteio: (nat, nat) -> (real, real)): (r: seq<Registro>)
    ensures |r| == 24
    ensures forall h :: 0 <= h < 24 ==> r[h].data == data && r[h].hora == h
  {
    seq(24, h requires 0 <= h < 24 =>
      var g := Round2(sorteio(dia, h).0);
      var c := Round2(Maior(0.5, sorteio(dia, h).1));
      Registro(data, h, g, c, Round2(g - c)))
  }

  /** The frame `gerar_dados_historicos` returns for `numDias` days from
      `inicio`: the days' rows one after the other. */
  function Historico(inicio: int, numDias: int, sorteio: (nat, nat) -> (real, real)): (r: seq<Registro>)
    decreases numDias
  {
    if numDias <= 0 then []
    else Historico(inicio, numDias - 1, sorteio) + LinhasDoDia(inicio + numDias - 1, numDias - 1, sorteio)
  }

  /** The history has 24 rows per day, hour by hour and day by day; with
      no day it is empty. */
  lemma {:induction false} HistoricoForma(inicio: int, n: int, sorteio: (nat, nat) -> (real, real))
    ensures n <= 0 ==> Historico(inicio, n, sorteio) == []
    ensures n >= 0 ==> |Historico(inicio, n, sorteio)| == 24 * n
    ensures forall k :: 0 <= k < |Historico(inicio, n, sorteio)| ==>
      Historico(inicio, n, sorteio)[k].data == inicio + k / 24 && Historico(inicio, n, sorteio)[k].hora == k % 24
    decreases n
  {
    if n > 0 {
      HistoricoForma(inicio, n - 1, sorteio);
      var a: seq<Registro> := Historico(inicio, n - 1, sorteio);
      var b: seq<Registro> := LinhasDoDia(inicio + n - 1, n - 1, sorteio);
      assert Historico(inicio, n, sorteio) == a + b;
      forall k | 24 * (n - 1) <= k < 24 * n
        ensures (a + b)[k].data == inicio + k / 24 && (a + b)[k].hora == k % 24
      {
        var j := k - 24 * (n - 1);
        assert (a + b)[k] == b[j];
        assert k / 24 == n - 1 && k % 24 == j;
      }
    }
  }

  /** In every generated row the surplus is exactly generation minus
      consumption (both are already whole hundredths, so rounding their
      difference changes nothing), and consumption is at least 0.5. */
  lemma RegistroExato(data: int, dia: nat, sorteio: (nat, nat) -> (real, real), h: nat)
    requires h < 24
    ensures var r := LinhasDoDia(data, dia, sorteio)[h];
      r.excedente == r.gerado - r.consumido && r.consumido >= 0.5
  {
    var g := Round2(sorteio(dia, h).0);
    var c := Round2(Maior(0.5, sorteio(dia, h).1));
    var kg := Centesimos(sorteio(dia, h).0);
    var kc := Centesimos(Maior(0.5, sorteio(dia, h).1));
    assert g - c == (kg - kc) as real / 100.0;
    RoundHundredths(kg - kc);
    RoundHundredths(50);
  }

  /** `gerar_dados_historicos`: one block of 24 rows per day of the
      inclusive period. */
  method GerarDadosHistoricos(inicio: int, fim: int, sorteio: (nat, nat) -> (real, real)) returns (dados: seq<Registro>)
    ensures dados == Historico(inicio, NumDias(inicio, fim), sorteio)
  {
    var numDias := NumDias(inicio, fim);
    dados := [];
    var dia := 0;
    while dia < numDias
      invariant 0 <= dia <= if numDias < 0 then 0 else numDias
      invariant dados == Historico(inicio, dia, sorteio)
    {
      var dataAtual := inicio + dia;
      dados := dados + LinhasDoDia(dataAtual, dia, sorteio);
      dia := dia + 1;
    }
    if numDias <= 0 {
      assert Historico(inicio, numDias, sorteio) == [];
    }
  }

  // ---------------------------------------------------------------------
  // One day's frame

  /** The rows of date `d`, as the classifier reads them: position in the
      whole history (offset by `base`) as the index, `Hora` as a timestamp
      on the hour. */
  function LinhasDe(dados: seq<Registro>, d: int, base: int): (r: seq<Linha>)
    ensures |r| <= |dados|
    decreases |dados|
  {
    if dados == [] then []
    else
      var n := |dados| - 1;
      var x := dados[n];
      LinhasDe(dados[..n], d, base)
      + (if x.data == d then [Linha(base + n, Horario(x.hora, 0), x.gerado, x.consumido, x.excedente)] else [])
  }

  lemma {:induction false} LinhasDeConcat(a: seq<Registro>, b: seq<Registro>, d: int, base: int)
    ensures LinhasDe(a + b, d, base) == LinhasDe(a, d, base) + LinhasDe(b, d, base + |a|)
    decreases |b|
  {
    if b == [] {
      assert a + b == a;
    } else {
      var n := |b| - 1;
      assert (a + b)[..|a + b| - 1] == a + b[..n];
      LinhasDeConcat(a, b[..n], d, base);
    }
  }

  lemma {:induction false} LinhasDeOutroDia(dados: seq<Registro>, d: int, base: int)
    requires forall k :: 0 <= k < |dados| ==> dados[k].data != d
    ensures LinhasDe(dados, d, base) == []
    decreases |dados|
  {
    if dados != [] {
      LinhasDeOutroDia(dados[..|dados| - 1], d, base);
    }
  }

  lemma {:induction false} LinhasDeMesmoDia(dados: seq<Registro>, d: int, base: int)
    requires forall k :: 0 <= k < |dados| ==> dados[k].data == d
    ensures |LinhasDe(dados, d, base)| == |dados|
    decreases |dados|
  {
    if dados != [] {
      LinhasDeMesmoDia(dados[..|dados| - 1], d, base);
    }
  }

  /** `dados_historicos[Data == d].copy()`: a frame with all four columns. */
  function QuadroDoDia(dados: seq<Registro>, d: int): (q: Quadro)
    ensures q.temHora && q.temExcedente
  {
    Quadro(true, true, true, true, LinhasDe(dados, d, 0))
  }

  /** Every date of the period has exactly 24 rows in the history, and a
      date outside it has none. */
  lemma {:induction false} VinteEQuatroPorDia(inicio: int, n: int, sorteio: (nat, nat) -> (real, real), d: int)
    ensures inicio <= d < inicio + n ==> |QuadroDoDia(Historico(inicio, n, sorteio), d).linhas| == 24
    ensures !(inicio <= d < inicio + n) ==> QuadroDoDia(Historico(inicio, n, sorteio), d).linhas == []
    decreases n
  {
    if n > 0 {
      VinteEQuatroPorDia(inicio, n - 1, sorteio, d);
      var a := Historico(inicio, n - 1, sorteio);
      var b := LinhasDoDia(inicio + n - 1, n - 1, sorteio);
      LinhasDeConcat(a, b, d, 0);
      if d == inicio + n - 1 {
        LinhasDeMesmoDia(b, d, |a|);
      } else {
        LinhasDeOutroDia(b, d, |a|);
      }
    } else {
      assert Historico(inicio, n, sorteio) == [];
    }
  }

  /** The page's period includes both chosen dates: with the history of
      `NumDias(inicio, fim)` days, each date from `inicio` to `fim`, ends
      included, has its 24 hours, and every other date has none. */
  lemma PeriodoInclusivo(inicio: int, fim: int, sorteio: (nat, nat) -> (real, real), d: int)
    ensures |QuadroDoDia(Historico(inicio, NumDias(inicio, fim), sorteio), d).linhas| == (if inicio <= d <= fim then 24 else 0)
  {
    VinteEQuatroPorDia(inicio, NumDias(inicio, fim), sorteio, d);
  }

  // ---------------------------------------------------------------------
  // The detail tab

  /** `get_status` of the detail table. */
  function GetStatus(excedente: real, deficitCritico: real): Status
  {
    if excedente < deficitCritico then StatusCritico
    else if excedente < 0.0 then StatusDeficit
    else StatusNormal
  }

  /** The bar colour of the hourly chart. */
  function CorBarra(excedente: real, deficitCritico: real): Cor
  {
    if excedente < deficitCritico then Vermelho
    else if excedente < 0.0 then Laranja
    else Verde
  }

  /** The status names the three bands, and the chart colours them the
      same way: red is critical, orange a plain deficit, green normal. */
  lemma StatusECor(x: real, dc: real)
    ensures GetStatus(x, dc) == StatusCritico <==> x < dc
    ensures GetStatus(x, dc) == StatusDeficit <==> dc <= x < 0.0
    ensures GetStatus(x, dc) == StatusNormal <==> x >= 0.0 && x >= dc
    ensures CorBarra(x, dc) == Vermelho <==> GetStatus(x, dc) == StatusCritico
    ensures CorBarra(x, dc) == Laranja <==> GetStatus(x, dc) == StatusDeficit
    ensures CorBarra(x, dc) == Verde <==> GetStatus(x, dc) == StatusNormal
  {
  }

  /** Number of rows whose status is critical. */
  function ContarCriticos(exc: seq<real>, dc: real): (k: nat)
    ensures k <= |exc|
  {
    if exc == [] then 0
    else ContarCriticos(exc[..|exc| - 1], dc) + (if GetStatus(exc[|exc| - 1], dc) == StatusCritico then 1 else 0)
  }

  /** For one day and one threshold, the table shows as many critical rows
      as the classifier raises per-hour critical alerts. */
  lemma {:induction false} CriticosIgualAlertasHorarios(linhas: seq<Linha>, exc: seq<real>, dc: real, agora: Instante)
    requires |linhas| == |exc|
    ensures ContarCriticos(exc, dc) == |AlertasHorarios(true, linhas, exc, dc, agora)|
  {
    CriticosSaoAbaixo(exc, dc);
    RegraHoraria(true, linhas, exc, dc, agora);
  }

  lemma {:induction false} CriticosSaoAbaixo(exc: seq<real>, dc: real)
    ensures ContarCriticos(exc, dc) == CountBelow(exc, dc)
    decreases |exc|
  {
    if exc != [] {
      CriticosSaoAbaixo(exc[..|exc| - 1], dc);
    }
  }

  // ---------------------------------------------------------------------
  // The overview tab

  /** The non-empty dates of `datas`, analysed in order. */
  function ResumosDoPeriodo(dados: seq<Registro>, datas: seq<int>): (r: seq<AnaliseDatada>)
    ensures |r| <= |datas|
  {
    if datas == [] then []
    else
      var d := datas[|datas| - 1];
      var linhas := LinhasDe(dados, d, 0);
      ResumosDoPeriodo(dados, datas[..|datas| - 1])
      + (if linhas == [] then [] else [AnaliseDatada(d, Resumir(Excedentes(linhas)))])
  }

  /** The last date of `datas` that has rows. */
  function UltimaDataComDados(dados: seq<Registro>, datas: seq<int>): (r: Option<int>)
    ensures r.Some? ==> r.value in datas && LinhasDe(dados, r.value, 0) != []
    ensures r.None? <==> forall k :: 0 <= k < |datas| ==> LinhasDe(dados, datas[k], 0) == []
  {
    if datas == [] then None
    else
      var d := datas[|datas| - 1];
      if LinhasDe(dados, d, 0) != [] then Some(d)
      else
        var r := UltimaDataComDados(dados, datas[..|datas| - 1]);
        assert forall k :: 0 <= k < |datas| - 1 ==> datas[..|datas| - 1][k] == datas[k];
        r
  }

  /** Every summary is that of a date of the period that has rows, made
      from that date's rows. */
  lemma {:induction false} ResumosDoPeriodoCorretos(dados: seq<Registro>, datas: seq<int>)
    ensures forall k :: 0 <= k < |ResumosDoPeriodo(dados, datas)| ==>
      var a := ResumosDoPeriodo(dados, datas)[k];
      && a.data in datas
      && LinhasDe(dados, a.data, 0) != []
      && a.analise == Resumir(Excedentes(LinhasDe(dados, a.data, 0)))
    decreases |datas|
  {
    if datas != [] {
      var n := |datas| - 1;
      var p := datas[..n];
      ResumosDoPeriodoCorretos(dados, p);
      var r0 := ResumosDoPeriodo(dados, p);
      var r := ResumosDoPeriodo(dados, datas);
      assert r[..|r0|] == r0;
      forall k | 0 <= k < |r|
        ensures && r[k].data in datas
                && LinhasDe(dados, r[k].data, 0) != []
                && r[k].analise == Resumir(Excedentes(LinhasDe(dados, r[k].data, 0)))
      {
        if k < |r0| {
          assert r[k] == r0[k];
          var j :| 0 <= j < |p| && p[j] == r0[k].data;
          assert datas[j] == p[j];
        } else {
          assert r[k].data == datas[n];
        }
      }
    }
  }

  /** Every date of the period that has rows gets a summary. */
  lemma {:induction false} ResumosDoPeriodoCompletos(dados: seq<Registro>, datas: seq<int>)
    ensures forall i :: 0 <= i < |datas| && LinhasDe(dados, datas[i], 0) != [] ==>
      exists k :: 0 <= k < |ResumosDoPeriodo(dados, datas)| && ResumosDoPeriodo(dados, datas)[k].data == datas[i]
    decreases |datas|
  {
    if datas != [] {
      var n := |datas| - 1;
      var p := datas[..n];
      ResumosDoPeriodoCompletos(dados, p);
      var r0 := ResumosDoPeriodo(dados, p);
      var linhas := LinhasDe(dados, datas[n], 0);
      var ult := if linhas == [] then [] else [AnaliseDatada(datas[n], Resumir(Excedentes(linhas)))];
      var r := r0 + ult;
      assert ResumosDoPeriodo(dados, datas) == r;
      forall i | 0 <= i < |datas| && LinhasDe(dados, datas[i], 0) != []
        ensures exists k :: 0 <= k < |r| && r[k].data == datas[i]
      {
        if i < n {
          assert datas[i] == p[i];
          var k :| 0 <= k < |r0| && r0[k].data == p[i];
          assert r[k] == r0[k];
        } else {
          assert r[|r0|] == ult[0];
        }
      }
    }
  }

  /** The date the overview ends on is the last one with rows: it has
      rows, and no later date of the period has any. */
  lemma {:induction false} UltimaDataEhAUltima(dados: seq<Registro>, datas: seq<int>)
    ensures UltimaDataComDados(dados, datas).Some? ==>
      exists i :: 0 <= i < |datas| && datas[i] == UltimaDataComDados(dados, datas).value
        && LinhasDe(dados, datas[i], 0) != []
        && forall j :: i < j < |datas| ==> LinhasDe(dados, datas[j], 0) == []
    decreases |datas|
  {
    if datas != [] {
      var n := |datas| - 1;
      if LinhasDe(dados, datas[n], 0) != [] {
        assert UltimaDataComDados(dados, datas) == Some(datas[n]);
      } else {
        var p := datas[..n];
        assert UltimaDataComDados(dados, datas) == UltimaDataComDados(dados, p);
        UltimaDataEhAUltima(dados, p);
        var r := UltimaDataComDados(dados, p);
        if r.Some? {
          var i :| 0 <= i < |p| && p[i] == r.value && LinhasDe(dados, p[i], 0) != []
            && forall j :: i < j < |p| ==> LinhasDe(dados, p[j], 0) == [];
          assert datas[i] == p[i];
          assert forall j :: i < j < n ==> datas[j] == p[j];
        }
      }
    }
  }

  /** The overview loop: it analyses every date with the page's own
      classifier, whose list each analysis replaces, so afterwards the list
      holds the alerts of the last date with rows, not of the selected
      date. */
  method VisaoGeral(s: SistemaAlertas, dados: seq<Registro>, datas: seq<int>, agora: Instante) returns (analises: seq<AnaliseDatada>)
    requires s.Valid()
    modifies s`alertas
    ensures s.Valid()
    ensures analises == ResumosDoPeriodo(dados, datas)
    ensures UltimaDataComDados(dados, datas).None? ==> s.alertas == old(s.alertas)
    ensures UltimaDataComDados(dados, datas).Some? ==>
      var q := QuadroDoDia(dados, UltimaDataComDados(dados, datas).value);
      s.alertas == AlertasDoDia(q, Excedentes(q.linhas), s.configuracoes, agora)
  {
    analises := [];
    var i := 0;
    while i < |datas|
      invariant 0 <= i <= |datas|
      invariant s.Valid()
      invariant analises == ResumosDoPeriodo(dados, datas[..i])
      invariant UltimaDataComDados(dados, datas[..i]).None? ==> s.alertas == old(s.alertas)
      invariant UltimaDataComDados(dados, datas[..i]).Some? ==>
        var q := QuadroDoDia(dados, UltimaDataComDados(dados, datas[..i]).value);
        s.alertas == AlertasDoDia(q, Excedentes(q.linhas), s.configuracoes, agora)
    {
      var d := datas[i];
      var q := QuadroDoDia(dados, d);
      assert datas[..i + 1][..i] == datas[..i];
      if q.linhas != [] {
        var analise := s.AnalisarExcedente(q, agora);
        analises := analises + [AnaliseDatada(d, analise.value)];
      }
      i := i + 1;
    }
    assert datas[..i] == datas;
  }

  /** `dias_deficit`: analysed days whose total is negative. */
  function DiasDeficit(analises: seq<AnaliseDatada>): (k: nat)
    ensures k <= |analises|
  {
    if analises == [] then 0
    else DiasDeficit(analises[..|analises| - 1]) + (if analises[|analises| - 1].analise.excedenteTotal < 0.0 then 1 else 0)
  }

  /** No day is counted as in deficit exactly when every analysed day has a
      non-negative total. */
  lemma {:induction false} DiasDeficitZero(analises: seq<AnaliseDatada>)
    ensures DiasDeficit(analises) == 0 <==> forall k :: 0 <= k < |analises| ==> analises[k].analise.excedenteTotal >= 0.0
    decreases |analises|
  {
    if analises != [] {
      var n := |analises| - 1;
      DiasDeficitZero(analises[..n]);
      assert forall k :: 0 <= k < n ==> analises[..n][k] == analises[k];
    }
  }

  // ---------------------------------------------------------------------
  // The history tab

  /** The four limits the sidebar passes to `configurar_limites`. */
  function LimitesDaPagina(dc: real, dm: real, pc: real, hc: real): (m: map<string, real>)
    ensures LimitesValidos(m)
    ensures m[DEFICIT_CRITICO] == dc && m[PERCENTUAL_CRITICO] == pc
  {
    map[DEFICIT_CRITICO := dc, DEFICIT_MODERADO := dm, PERCENTUAL_CRITICO := pc, HORAS_CRITICAS := hc]
  }

  function Datar(d: int, s: seq<Alerta>): (r: seq<AlertaDatado>)
    ensures |r| == |s|
    ensures forall k :: 0 <= k < |r| ==> r[k] == AlertaDatado(d, s[k])
  {
    seq(|s|, k requires 0 <= k < |s| => AlertaDatado(d, s[k]))
  }

  /** The alerts one date contributes to the history. */
  function AlertasDaData(dados: seq<Registro>, d: int, cfg: map<string, real>, agora: Instante): seq<AlertaDatado>
    requires LimitesValidos(cfg)
  {
    var q := QuadroDoDia(dados, d);
    if q.linhas == [] then [] else Datar(d, AlertasDoDia(q, Excedentes(q.linhas), cfg, agora))
  }

  /** The blocks of `datas`, one after the other. */
  function Periodo(datas: seq<int>, bloco: int -> seq<AlertaDatado>): seq<AlertaDatado>
  {
    if datas == [] then [] else Periodo(datas[..|datas| - 1], bloco) + bloco(datas[|datas| - 1])
  }

  /** `alertas_periodo`: the dates' alerts one after the other. */
  function AlertasDoPeriodo(dados: seq<Registro>, datas: seq<int>, cfg: map<string, real>, agora: Instante): seq<AlertaDatado>
    requires LimitesValidos(cfg)
  {
    Periodo(datas, e => AlertasDaData(dados, e, cfg, agora))
  }

  /** `for alerta in sistema_temp.alertas: alerta['data'] = d;
      alertas_periodo.append(alerta)`. */
  method AcrescentarDatados(acumulado: seq<AlertaDatado>, d: int, doDia: seq<Alerta>) returns (r: seq<AlertaDatado>)
    ensures r == acumulado + Datar(d, doDia)
  {
    r := acumulado;
    var j := 0;
    while j < |doDia|
      invariant 0 <= j <= |doDia|
      invariant r == acumulado + Datar(d, doDia[..j])
    {
      r := r + [AlertaDatado(d, doDia[j])];
      assert Datar(d, doDia[..j + 1]) == Datar(d, doDia[..j]) + [AlertaDatado(d, doDia[j])];
      j := j + 1;
    }
    assert doDia[..j] == doDia;
  }

  /** One pass of the history loop: a fresh classifier, configured with
      the page's four limits, analyses the date's rows (when there are
      any) and its alerts are tagged with the date. */
  method AlertasDeUmaData(dados: seq<Registro>, d: int, dc: real, dm: real, pc: real, hc: real, agora: Instante, acumulado: seq<AlertaDatado>)
    returns (r: seq<AlertaDatado>)
    ensures r == acumulado + AlertasDaData(dados, d, LimitesPadrao() + LimitesDaPagina(dc, dm, pc, hc), agora)
  {
    var q := QuadroDoDia(dados, d);
    r := acumulado;
    if q.linhas != [] {
      var sistemaTemp := new SistemaAlertas();
      sistemaTemp.ConfigurarLimites(LimitesDaPagina(dc, dm, pc, hc));
      var _ := sistemaTemp.AnalisarExcedente(q, agora);
      r := AcrescentarDatados(acumulado, d, sistemaTemp.alertas);
    }
  }

  /** The history loop over the available dates. The page's own
      classifier is not touched. */
  method HistoricoAlertas(dados: seq<Registro>, datas: seq<int>, dc: real, dm: real, pc: real, hc: real, agora: Instante)
    returns (alertasPeriodo: seq<AlertaDatado>)
    ensures alertasPeriodo == AlertasDoPeriodo(dados, datas, LimitesPadrao() + LimitesDaPagina(dc, dm, pc, hc), agora)
  {
    var cfg := LimitesPadrao() + LimitesDaPagina(dc, dm, pc, hc);
    ghost var bloco := e => AlertasDaData(dados, e, cfg, agora);
    alertasPeriodo := [];
    var i := 0;
    while i < |datas|
      invariant 0 <= i <= |datas|
      invariant alertasPeriodo == Periodo(datas[..i], bloco)
    {
      assert datas[..i + 1][..i] == datas[..i];
      assert Periodo(datas[..i + 1], bloco) == Periodo(datas[..i], bloco) + bloco(datas[i]);
      assert bloco(datas[i]) == AlertasDaData(dados, datas[i], cfg, agora);
      alertasPeriodo := AlertasDeUmaData(dados, datas[i], dc, dm, pc, hc, agora, alertasPeriodo);
      i := i + 1;
    }
    assert datas[..i] == datas;
  }

  /** The entries of the history tagged with date `d`. */
  function DaData(r: seq<AlertaDatado>, d: int): (f: seq<AlertaDatado>)
    ensures |f| <= |r|
  {
    if r == [] then [] else DaData(r[..|r| - 1], d) + (if r[|r| - 1].data == d then [r[|r| - 1]] else [])
  }

  lemma {:induction false} DaDataConcat(a: seq<AlertaDatado>, b: seq<AlertaDatado>, d: int)
    ensures DaData(a + b, d) == DaData(a, d) + DaData(b, d)
    decreases |b|
  {
    if b == [] {
      assert a + b == a;
    } else {
      var n := |b| - 1;
      assert (a + b)[..|a + b| - 1] == a + b[..n];
      DaDataConcat(a, b[..n], d);
    }
  }

  /** A list whose entries all carry date `e` is kept whole by the filter
      on `e` and emptied by the filter on any other date. */
  lemma {:induction false} DaDataUniforme(s: seq<AlertaDatado>, d: int, e: int)
    requires forall k :: 0 <= k < |s| ==> s[k].data == e
    ensures DaData(s, d) == if d == e then s else []
    decreases |s|
  {
    if s != [] {
      var n := |s| - 1;
      DaDataUniforme(s[..n], d, e);
      assert s[..n] + [s[n]] == s;
    }
  }

  /** Every block carries only its own date. */
  ghost predicate BlocosDatados(bloco: int -> seq<AlertaDatado>)
  {
    forall e, k :: 0 <= k < |bloco(e)| ==> bloco(e)[k].data == e
  }

  lemma {:induction false} PeriodoPorData(datas: seq<int>, bloco: int -> seq<AlertaDatado>, i: nat)
    requires BlocosDatados(bloco)
    requires i < |datas|
    requires forall k :: 0 <= k < |datas| && k != i ==> datas[k] != datas[i]
    ensures DaData(Periodo(datas, bloco), datas[i]) == bloco(datas[i])
    decreases |datas|
  {
    var n := |datas| - 1;
    var p := datas[..n];
    var d := datas[i];
    DaDataConcat(Periodo(p, bloco), bloco(datas[n]), d);
    DaDataUniforme(bloco(datas[n]), d, datas[n]);
    if i < n {
      PeriodoPorData(p, bloco, i);
    } else {
      PeriodoAusente(p, bloco, d);
    }
  }

  lemma {:induction false} PeriodoAusente(datas: seq<int>, bloco: int -> seq<AlertaDatado>, d: int)
    requires BlocosDatados(bloco)
    requires forall k :: 0 <= k < |datas| ==> datas[k] != d
    ensures DaData(Periodo(datas, bloco), d) == []
    decreases |datas|
  {
    if datas != [] {
      var n := |datas| - 1;
      PeriodoAusente(datas[..n], bloco, d);
      DaDataConcat(Periodo(datas[..n], bloco), bloco(datas[n]), d);
      DaDataUniforme(bloco(datas[n]), d, datas[n]);
    }
  }

  /** Each date's alerts in the history are exactly what a classifier
      analysing that date's rows alone raises, whatever the other dates
      hold. */
  lemma HistoricoPorData(dados: seq<Registro>, datas: seq<int>, cfg: map<string, real>, agora: Instante, i: nat)
    requires LimitesValidos(cfg)
    requires i < |datas|
    requires forall k :: 0 <= k < |datas| && k != i ==> datas[k] != datas[i]
    ensures DaData(AlertasDoPeriodo(dados, datas, cfg, agora), datas[i]) == AlertasDaData(dados, datas[i], cfg, agora)
  {
    var bloco := e => AlertasDaData(dados, e, cfg, agora);
    assert BlocosDatados(bloco);
    PeriodoPorData(datas, bloco, i);
  }

  /** The alert-list filter: an alert stays when its kind is selected and
      the date filter is "Todas" (`None`) or names its date. */
  function FiltrarHistorico(r: seq<AlertaDatado>, tipos: set<Tipo>, data: Option<int>): (f: seq<AlertaDatado>)
    ensures |f| <= |r|
    ensures forall a :: a in f <==> a in r && a.alerta.tipo in tipos && (data.None? || a.data == data.value)
  {
    if r == [] then []
    else
      var a := r[|r| - 1];
      FiltrarHistorico(r[..|r| - 1], tipos, data)
      + (if a.alerta.tipo in tipos && (data.None? || a.data == data.value) then [a] else [])
  }
}
