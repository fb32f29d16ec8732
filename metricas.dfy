/** The report helpers of `utils.py`: the KPI aggregation over a report
    frame, and the deterministic structure of the three sample-data
    generators (the random draws are parameters). */
module Metricas {
  import opened Common

  /** A row of a standardised report frame. */
  datatype Dia = Dia(data: string, gerado: real, consumido: real, excedente: real, eficiencia: real)

  datatype Metricas = Metricas(
    totalGerado: real,
    totalConsumido: real,
    totalExcedente: real,
    mediaDiariaGerada: real,
    mediaDiariaConsumida: real,
    eficienciaMedia: real,
    melhorDia: string,
    piorDia: string,
    diasComExcedente: nat,
    percentualExcedente: real)

  function ColunaGerado(s: seq<Dia>): (r: seq<real>)
    ensures |r| == |s| && forall i :: 0 <= i < |s| ==> r[i] == s[i].gerado
  {
    seq(|s|, i requires 0 <= i < |s| => s[i].gerado)
  }

  function ColunaConsumido(s: seq<Dia>): (r: seq<real>)
    ensures |r| == |s| && forall i :: 0 <= i < |s| ==> r[i] == s[i].consumido
  {
    seq(|s|, i requires 0 <= i < |s| => s[i].consumido)
  }

  function ColunaExcedente(s: seq<Dia>): (r: seq<real>)
    ensures |r| == |s| && forall i :: 0 <= i < |s| ==> r[i] == s[i].excedente
  {
    seq(|s|, i requires 0 <= i < |s| => s[i].excedente)
  }

  function ColunaEficiencia(s: seq<Dia>): (r: seq<real>)
    ensures |r| == |s| && forall i :: 0 <= i < |s| ==> r[i] == s[i].eficiencia
  {
    seq(|s|, i requires 0 <= i < |s| => s[i].eficiencia)
  }

  /** `idxmax`: the first position holding the largest value. */
  function IndiceMax(s: seq<real>): (i: nat)
    requires s != []
    ensures i < |s|
    ensures forall j :: 0 <= j < |s| ==> s[j] <= s[i]
    ensures forall j :: 0 <= j < i ==> s[j] < s[i]
  {
    if |s| == 1 then 0
    else
      var n := |s| - 1;
      var i := IndiceMax(s[..n]);
      assert forall j :: 0 <= j < n ==> s[..n][j] == s[j];
      if s[n] > s[i] then n else i
  }

  /** `idxmin`: the first position holding the smallest value. */
  function IndiceMin(s: seq<real>): (i: nat)
    requires s != []
    ensures i < |s|
    ensures forall j :: 0 <= j < |s| ==> s[i] <= s[j]
    ensures forall j :: 0 <= j < i ==> s[i] < s[j]
  {
    if |s| == 1 then 0
    else
      var n := |s| - 1;
      var i := IndiceMin(s[..n]);
      assert forall j :: 0 <= j < n ==> s[..n][j] == s[j];
      if s[n] < s[i] then n else i
  }

  /** `calcular_metricas_avancadas`. An empty frame makes the source
      divide by zero (and `idxmax` fail); here it gives `None`. */
  function CalcularMetricas(dias: seq<Dia>): (r: Option<Metricas>)
    ensures r.None? <==> dias == []
    ensures r.Some? ==>
      var m := r.value;
      && m.totalGerado == Sum(ColunaGerado(dias))
      && m.totalConsumido == Sum(ColunaConsumido(dias))
      && m.totalExcedente == Sum(ColunaExcedente(dias))
      && m.mediaDiariaGerada == Media(m.totalGerado, |dias|)
      && m.mediaDiariaConsumida == Media(m.totalConsumido, |dias|)
      && m.eficienciaMedia == Media(Sum(ColunaEficiencia(dias)), |dias|)
      && m.diasComExcedente == CountAbove(ColunaExcedente(dias), 0.0) <= |dias|
      && m.percentualExcedente == Percentual(m.diasComExcedente, |dias|)
      && 0.0 <= m.percentualExcedente <= 100.0
  {
    if dias == [] then None
    else
      var n := |dias|;
      var totalGerado := Sum(ColunaGerado(dias));
      var totalConsumido := Sum(ColunaConsumido(dias));
      var comExcedente := CountAbove(ColunaExcedente(dias), 0.0);
      Some(Metricas(
        totalGerado,
        totalConsumido,
        Sum(ColunaExcedente(dias)),
        Media(totalGerado, n),
        Media(totalConsumido, n),
        Media(Sum(ColunaEficiencia(dias)), n),
        dias[IndiceMax(ColunaGerado(dias))].data,
        dias[IndiceMin(ColunaGerado(dias))].data,
        comExcedente,
        Percentual(comExcedente, n)))
  }

  /** The best and worst days are the dates of the first rows with the
      largest and the smallest generation. */
  lemma MelhorEPiorDia(dias: seq<Dia>)
    requires dias != []
    ensures var m := CalcularMetricas(dias).value;
      && (exists i :: 0 <= i < |dias| && dias[i].data == m.melhorDia
           && (forall j :: 0 <= j < |dias| ==> dias[j].gerado <= dias[i].gerado)
           && (forall j :: 0 <= j < i ==> dias[j].gerado < dias[i].gerado))
      && (exists i :: 0 <= i < |dias| && dias[i].data == m.piorDia
           && (forall j :: 0 <= j < |dias| ==> dias[i].gerado <= dias[j].gerado)
           && (forall j :: 0 <= j < i ==> dias[i].gerado < dias[j].gerado))
  {
    var g := ColunaGerado(dias);
    var i := IndiceMax(g);
    var k := IndiceMin(g);
    assert dias[i].data == CalcularMetricas(dias).value.melhorDia;
    assert dias[k].data == CalcularMetricas(dias).value.piorDia;
  }

  /** The surplus share is 100 % exactly when every row has a surplus, and
      0 % exactly when none has. */
  lemma PercentualExcedenteExtremos(dias: seq<Dia>)
    requires dias != []
    ensures CalcularMetricas(dias).value.percentualExcedente == 100.0 <==> forall i :: 0 <= i < |dias| ==> dias[i].excedente > 0.0
    ensures CalcularMetricas(dias).value.percentualExcedente == 0.0 <==> forall i :: 0 <= i < |dias| ==> dias[i].excedente <= 0.0
  {
    var e := ColunaExcedente(dias);
    var k := CountAbove(e, 0.0);
    var n := |dias|;
    PercentualExtremos(k, n);
    CountAboveTodos(e, 0.0);
    CountAboveZeroIffNone(e, 0.0);
    assert CalcularMetricas(dias).value.percentualExcedente == Percentual(k, n);
  }

  // ---------------------------------------------------------------------
  // Derived fields of the generated rows

  /** `round(g, 2)`, `round(c, 2)`, `round(g - c, 2)` and
      `round((g - c) * 0.75, 2)`, from the unrounded draws. */
  datatype Derivados = Derivados(gerado: real, consumido: real, excedente: real, economia: real)

  function Derivar(g: real, c: real): Derivados
  {
    Derivados(Round2(g), Round2(c), Round2(g - c), Round2((g - c) * 0.75))
  }

  /** The rounded surplus is within 1.5 hundredths of the rounded
      generation minus the rounded consumption, the saving within a
      hundredth of 0.75 times the rounded surplus, and a positive raw
      surplus never shows a negative surplus or saving. */
  lemma DerivadosCoerentes(g: real, c: real)
    ensures var d := Derivar(g, c);
      && -3.0 / 200.0 <= d.excedente - (d.gerado - d.consumido) <= 3.0 / 200.0
      && -7.0 / 800.0 <= d.economia - 0.75 * d.excedente <= 7.0 / 800.0
      && (g - c > 0.0 ==> d.excedente >= 0.0 && d.economia >= 0.0)
  {
    var d := Derivar(g, c);
    if g - c > 0.0 {
      NaoNegativo(g - c);
      NaoNegativo((g - c) * 0.75);
    }
  }

  /** Rounding a positive value to hundredths never gives a negative one. */
  lemma NaoNegativo(x: real)
    requires x > 0.0
    ensures Round2(x) >= 0.0
  {
    var k := Centesimos(x);
    assert k as real > -0.5;
  }

  // ---------------------------------------------------------------------
  // gerar_dados_comparativo

  /** A row of the comparison frame; its `periodo` column is
      `Periodo(ano, mes)`, derived from the other two. */
  datatype LinhaComparativo = LinhaComparativo(
    ano: int, mes: nat,
    gerado: real, consumido: real, excedente: real, economia: real)

  /** `1 + (ano - ano_base) * 0.05`: generation grows 5 % a year. */
  function FatorCrescimento(ano: int, anoBase: int): real
  {
    1.0 + (ano - anoBase) as real * 0.05
  }

  /** `f"{ano}-{mes:02d}"`. */
  function Periodo(ano: int, mes: nat): string
  {
    IntToString(ano) + "-" + Pad2(mes)
  }

  /** The row of one month; `sorteio(ano, mes)` stands for the two draws
      (generation before growth, consumption). */
  function LinhaDoMes(ano: int, mes: nat, anoBase: int, sorteio: (int, nat) -> (real, real)): LinhaComparativo
  {
    Linha(ano, mes, sorteio(ano, mes).0, FatorCrescimento(ano, anoBase), sorteio(ano, mes).1)
  }

  /** The row of a month from its drawn generation, the year's growth
      factor and the drawn consumption. */
  function Linha(ano: int, mes: nat, bruto: real, fator: real, c: real): LinhaComparativo
  {
    var d := Derivar(bruto * fator, c);
    LinhaComparativo(ano, mes, d.gerado, d.consumido, d.excedente, d.economia)
  }

  /** Months 1 to `ultimo` of one year. */
  function MesesDoAno(ano: int, ultimo: nat, anoBase: int, sorteio: (int, nat) -> (real, real)): (r: seq<LinhaComparativo>)
    ensures |r| == ultimo
    ensures forall m :: 0 <= m < ultimo ==> r[m] == LinhaDoMes(ano, m + 1, anoBase, sorteio)
  {
    seq(ultimo, m requires 0 <= m < ultimo => LinhaDoMes(ano, m + 1, anoBase, sorteio))
  }

  lemma MesesDoAnoPasso(ano: int, ultimo: nat, anoBase: int, sorteio: (int, nat) -> (real, real))
    ensures MesesDoAno(ano, ultimo + 1, anoBase, sorteio)
         == MesesDoAno(ano, ultimo, anoBase, sorteio) + [LinhaDoMes(ano, ultimo + 1, anoBase, sorteio)]
  {
    var a := MesesDoAno(ano, ultimo + 1, anoBase, sorteio);
    var b := MesesDoAno(ano, ultimo, anoBase, sorteio) + [LinhaDoMes(ano, ultimo + 1, anoBase, sorteio)];
    assert |a| == |b|;
    forall m | 0 <= m < |a|
      ensures a[m] == b[m]
    {
      if m < ultimo {
        assert b[m] == MesesDoAno(ano, ultimo, anoBase, sorteio)[m];
      }
    }
  }

  /** The rows of the years from `anoBase` up to (not including) `anoFim`:
      twelve months each, except that the current year stops at the
      current month. */
  function Comparativo(anoBase: int, anoFim: int, anoAtual: int, mesAtual: nat, sorteio: (int, nat) -> (real, real)): seq<LinhaComparativo>
    decreases anoFim - anoBase
  {
    if anoFim <= anoBase then []
    else
      var ano := anoFim - 1;
      Comparativo(anoBase, ano, anoAtual, mesAtual, sorteio)
      + MesesDoAno(ano, if ano == anoAtual then mesAtual else 12, anoBase, sorteio)
  }

  /** `gerar_dados_comparativo(anos)` at the clock reading
      (`anoAtual`, `mesAtual`): the loop over the years. */
  method GerarDadosComparativo(anos: int, anoAtual: int, mesAtual: nat, sorteio: (int, nat) -> (real, real))
    returns (dados: seq<LinhaComparativo>)
    requires 1 <= mesAtual <= 12
    ensures dados == Comparativo(anoAtual - anos + 1, anoAtual + 1, anoAtual, mesAtual, sorteio)
  {
    var anoBase := anoAtual - anos + 1;
    dados := [];
    var ano := anoBase;
    while ano < anoAtual + 1
      invariant anos >= 0 ==> anoBase <= ano <= anoAtual + 1
      invariant anos < 0 ==> ano == anoBase
      invariant dados == Comparativo(anoBase, ano, anoAtual, mesAtual, sorteio)
      decreases anoAtual + 1 - ano
    {
      var linhas := LinhasDoAno(ano, anoBase, anoAtual, mesAtual, sorteio);
      dados := dados + linhas;
      ano := ano + 1;
    }
  }

  /** The month loop of one year, left at the first month after the
      current one. */
  method LinhasDoAno(ano: int, anoBase: int, anoAtual: int, mesAtual: nat, sorteio: (int, nat) -> (real, real))
    returns (linhas: seq<LinhaComparativo>)
    requires 1 <= mesAtual <= 12
    ensures linhas == MesesDoAno(ano, if ano == anoAtual then mesAtual else 12, anoBase, sorteio)
  {
    linhas := [];
    var mes := 1;
    while mes < 13
      invariant 1 <= mes <= 13
      invariant ano == anoAtual ==> mes <= mesAtual + 1
      invariant linhas == MesesDoAno(ano, mes - 1, anoBase, sorteio)
    {
      if ano == anoAtual && mes > mesAtual {
        break;
      }
      var fator := FatorCrescimento(ano, anoBase);
      var linha := Linha(ano, mes, sorteio(ano, mes).0, fator, sorteio(ano, mes).1);
      MesesDoAnoPasso(ano, mes - 1, anoBase, sorteio);
      linhas := linhas + [linha];
      mes := mes + 1;
    }
  }

  /** Position `12·q + m` is month `m` of block `q`. */
  lemma Div12(q: int, m: int)
    requires 0 <= m < 12
    ensures (12 * q + m) / 12 == q && (12 * q + m) % 12 == m
  {
  }

  /** Full years: twelve rows each, in month order. */
  lemma {:induction false} ComparativoAnosCompletos(anoBase: int, anoFim: int, anoAtual: int, mesAtual: nat, sorteio: (int, nat) -> (real, real))
    requires anoBase <= anoFim <= anoAtual
    ensures var r := Comparativo(anoBase, anoFim, anoAtual, mesAtual, sorteio);
      && |r| == 12 * (anoFim - anoBase)
      && forall k :: 0 <= k < |r| ==> r[k].ano == anoBase + k / 12 && r[k].mes == k % 12 + 1
    decreases anoFim - anoBase
  {
    if anoFim > anoBase {
      ComparativoAnosCompletos(anoBase, anoFim - 1, anoAtual, mesAtual, sorteio);
      var a: seq<LinhaComparativo> := Comparativo(anoBase, anoFim - 1, anoAtual, mesAtual, sorteio);
      var b: seq<LinhaComparativo> := MesesDoAno(anoFim - 1, 12, anoBase, sorteio);
      var r: seq<LinhaComparativo> := a + b;
      assert Comparativo(anoBase, anoFim, anoAtual, mesAtual, sorteio) == r;
      forall k | |a| <= k < |r|
        ensures r[k].ano == anoBase + k / 12 && r[k].mes == k % 12 + 1
      {
        var m := k - |a|;
        assert r[k] == b[m];
        Div12(anoFim - 1 - anoBase, m);
      }
    }
  }

  /** The generator emits 12·(anos − 1) + current month rows, row k being
      month k mod 12 + 1 of year ano_base + k div 12: chronological order with no gap, ending at the current month.
      With no year it emits nothing. */
  lemma ComparativoForma(anos: int, anoAtual: int, mesAtual: nat, sorteio: (int, nat) -> (real, real))
    requires 1 <= mesAtual <= 12
    ensures var r := Comparativo(anoAtual - anos + 1, anoAtual + 1, anoAtual, mesAtual, sorteio);
      && (anos <= 0 ==> r == [])
      && (anos >= 1 ==> |r| == 12 * (anos - 1) + mesAtual)
      && (anos >= 1 ==> r[|r| - 1].ano == anoAtual && r[|r| - 1].mes == mesAtual)
      && forall k :: 0 <= k < |r| ==>
           r[k].ano == anoAtual - anos + 1 + k / 12 && r[k].mes == k % 12 + 1
  {
    var anoBase := anoAtual - anos + 1;
    if anos >= 1 {
      ComparativoAnosCompletos(anoBase, anoAtual, anoAtual, mesAtual, sorteio);
      var a: seq<LinhaComparativo> := Comparativo(anoBase, anoAtual, anoAtual, mesAtual, sorteio);
      var b: seq<LinhaComparativo> := MesesDoAno(anoAtual, mesAtual, anoBase, sorteio);
      var r: seq<LinhaComparativo> := a + b;
      assert Comparativo(anoBase, anoAtual + 1, anoAtual, mesAtual, sorteio) == r;
      forall k | |a| <= k < |r|
        ensures r[k].ano == anoBase + k / 12 && r[k].mes == k % 12 + 1
      {
        var m := k - |a|;
        assert r[k] == b[m];
        Div12(anoAtual - anoBase, m);
      }
    }
  }

  /** The month label is "YYYY-MM": the year as `str` writes it, a dash,
      and the month's tens and units digits, which read back as the
      month. */
  lemma PeriodoFormato(ano: int, mes: nat)
    requires 1 <= mes <= 12
    ensures var p := Periodo(ano, mes); var a := IntToString(ano);
      && |p| == |a| + 3
      && p[..|a|] == a
      && p[|a|] == '-'
      && p[|a| + 1] == DigitChar(mes / 10) && p[|a| + 2] == DigitChar(mes % 10)
      && 10 * ValorDigito(p[|a| + 1]) + ValorDigito(p[|a| + 2]) == mes
  {
    var a := IntToString(ano);
    var p := Periodo(ano, mes);
    assert p == a + "-" + Pad2(mes);
    DigitoIda(mes / 10);
    DigitoIda(mes % 10);
  }

  // ---------------------------------------------------------------------
  // gerar_dados_por_periodo

  /** A month end of the window; its label is `Periodo(ano, mes)`. */
  datatype MesAno = MesAno(ano: int, mes: nat)

  datatype LinhaPeriodo = LinhaPeriodo(periodo: MesAno, gerado: real, consumido: real, excedente: real, economia: real)

  /** The month-end rows of the monthly report; `fins` are the months of
      the month-end dates in the window, `sorteio(i)` the draws of row i. */
  function PorPeriodo(fins: seq<MesAno>, sorteio: nat -> (real, real)): (r: seq<LinhaPeriodo>)
    ensures |r| == |fins|
    ensures forall i :: 0 <= i < |fins| ==> r[i] == LinhaDoPeriodo(fins[i], sorteio(i).0, sorteio(i).1)
  {
    seq(|fins|, i requires 0 <= i < |fins| => LinhaDoPeriodo(fins[i], sorteio(i).0, sorteio(i).1))
  }

  /** The row of one month end from its two draws. */
  function LinhaDoPeriodo(fim: MesAno, g: real, c: real): LinhaPeriodo
  {
    var d := Derivar(g, c);
    LinhaPeriodo(fim, d.gerado, d.consumido, d.excedente, d.economia)
  }

  lemma PorPeriodoPasso(fins: seq<MesAno>, sorteio: nat -> (real, real), i: nat)
    requires i < |fins|
    ensures PorPeriodo(fins[..i + 1], sorteio) == PorPeriodo(fins[..i], sorteio) + [LinhaDoPeriodo(fins[i], sorteio(i).0, sorteio(i).1)]
  {
    var a := PorPeriodo(fins[..i + 1], sorteio);
    var b := PorPeriodo(fins[..i], sorteio) + [LinhaDoPeriodo(fins[i], sorteio(i).0, sorteio(i).1)];
    assert |a| == |b|;
    forall k | 0 <= k < |a|
      ensures a[k] == b[k]
    {
      assert fins[..i + 1][k] == fins[k];
      if k < i {
        assert fins[..i][k] == fins[k];
        assert b[k] == PorPeriodo(fins[..i], sorteio)[k];
      }
    }
  }

  /** `gerar_dados_por_periodo(tipo)`: one row per month end for
      "mensal"; any other period type falls off the end of the function and
      yields `None`. */
  method GerarDadosPorPeriodo(tipoPeriodo: string, fins: seq<MesAno>, sorteio: nat -> (real, real))
    returns (r: Option<seq<LinhaPeriodo>>)
    ensures r.Some? <==> tipoPeriodo == "mensal"
    ensures r.Some? ==> r.value == PorPeriodo(fins, sorteio)
  {
    if tipoPeriodo != "mensal" {
      return None;
    }
    var dados: seq<LinhaPeriodo> := [];
    var i := 0;
    while i < |fins|
      invariant 0 <= i <= |fins|
      invariant dados == PorPeriodo(fins[..i], sorteio)
    {
      var g := sorteio(i).0;
      var c := sorteio(i).1;
      PorPeriodoPasso(fins, sorteio, i);
      dados := dados + [LinhaDoPeriodo(fins[i], g, c)];
      i := i + 1;
    }
    assert fins[..i] == fins;
    r := Some(dados);
  }

  // ---------------------------------------------------------------------
  // gerar_dados_relatorio

  datatype LinhaRelatorio = LinhaRelatorio(data: int, producao: real, consumo: real, injetado: real, economia: real)

  /** `gerar_dados_relatorio(dias)` on day `hoje`: one row per day from
      `hoje - dias` on, with the saving at 0.75 per kWh produced; a
      negative count makes `date_range` fail (`None`). */
  function GerarDadosRelatorio(dias: int, hoje: int, sorteio: nat -> (real, real, real)): (r: Option<seq<LinhaRelatorio>>)
    ensures r.None? <==> dias < 0
  {
    if dias < 0 then None
    else Some(seq(dias, i requires 0 <= i < dias =>
      var p := Round2(sorteio(i).0);
      LinhaRelatorio(hoje - dias + i, p, Round2(sorteio(i).1), Round2(sorteio(i).2), p * 0.75)))
  }

  /** The report covers `dias` consecutive days ending yesterday, and
      every saving is 0.75 times the (rounded) production of its row. */
  lemma RelatorioForma(dias: int, hoje: int, sorteio: nat -> (real, real, real))
    requires dias >= 0
    ensures var r := GerarDadosRelatorio(dias, hoje, sorteio).value;
      && |r| == dias
      && (dias > 0 ==> r[0].data == hoje - dias && r[dias - 1].data == hoje - 1)
      && (forall i :: 0 <= i < |r| - 1 ==> r[i + 1].data == r[i].data + 1)
      && (forall i :: 0 <= i < |r| ==> r[i].economia == r[i].producao * 0.75)
  {
  }
}
