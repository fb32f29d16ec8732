/** Column standardisation of the report and export pages: the names of a
    frame's columns are cleaned (`str(col).lower().strip()`) and looked up
    in a fixed map, and the report page then adds the derived efficiency,
    saving and weekday columns. The frame is updated in place. */
module Colunas {
  import opened Common

  // ---------------------------------------------------------------------
  // Cleaning a column name

  /** The characters `str.strip()` removes (the ASCII and Latin-1 ones). */
  predicate EspacoBranco(c: char)
  {
    c == ' ' || c == '\t' || c == '\n' || c == '\r' || c == '\U{000B}' || c == '\U{000C}'
    || ('\U{001C}' <= c <= '\U{001F}') || c == '\U{0085}' || c == '\U{00A0}'
  }

  function SemEspacoInicial(s: string): (r: string)
    ensures |r| <= |s| && r == s[|s| - |r|..]
    ensures forall k :: 0 <= k < |s| - |r| ==> EspacoBranco(s[k])
    ensures r == [] || !EspacoBranco(r[0])
  {
    if s != [] && EspacoBranco(s[0]) then
      var r := SemEspacoInicial(s[1..]);
      assert forall k :: 1 <= k < |s| - |r| ==> s[k] == s[1..][k - 1];
      r
    else s
  }

  function SemEspacoFinal(s: string): (r: string)
    ensures |r| <= |s| && r == s[..|r|]
    ensures forall k :: |r| <= k < |s| ==> EspacoBranco(s[k])
    ensures r == [] || !EspacoBranco(r[|r| - 1])
  {
    if s != [] && EspacoBranco(s[|s| - 1]) then SemEspacoFinal(s[..|s| - 1]) else s
  }

  /** `str.strip()`: the slice of `s` left once the whitespace at both ends
      is cut off; it starts and ends with a non-whitespace character, so it
      is empty exactly when `s` is all whitespace. */
  function Strip(s: string): (r: string)
    ensures |r| <= |s|
    ensures r == [] || (!EspacoBranco(r[0]) && !EspacoBranco(r[|r| - 1]))
    ensures exists i, j ::
              && 0 <= i <= j <= |s| && r == s[i..j]
              && (forall k :: 0 <= k < i ==> EspacoBranco(s[k]))
              && (forall k :: j <= k < |s| ==> EspacoBranco(s[k]))
  {
    var t := SemEspacoInicial(s);
    var r := SemEspacoFinal(t);
    var i := |s| - |t|;
    assert s[i..i + |r|] == r;
    r
  }

  /** A name without whitespace at its ends is left as it is. */
  lemma StripSemBordas(s: string)
    requires s != [] && !EspacoBranco(s[0]) && !EspacoBranco(s[|s| - 1])
    ensures Strip(s) == s
  {
  }

  function MinusculaChar(c: char): char
  {
    if 'A' <= c <= 'Z' then (c as int - 'A' as int + 'a' as int) as char else c
  }

  /** `str.lower()` on the ASCII letters. */
  function Minusculas(s: string): (r: string)
    ensures |r| == |s|
    ensures forall i :: 0 <= i < |s| ==> r[i] == MinusculaChar(s[i])
  {
    seq(|s|, i requires 0 <= i < |s| => MinusculaChar(s[i]))
  }

  /** The lookup key of a column name: `str(col).lower().strip()`. */
  function Chave(nome: string): string
  {
    Strip(Minusculas(nome))
  }

  /** `col_map.get(clean_col, col)`: the mapped name when the cleaned name
      is a key, otherwise the original name verbatim. */
  function Normalizar(mapa: map<string, string>, nome: string): (r: string)
    ensures Chave(nome) in mapa ==> r == mapa[Chave(nome)]
    ensures Chave(nome) !in mapa ==> r == nome
  {
    if Chave(nome) in mapa then mapa[Chave(nome)] else nome
  }

  /** The map of the report page. */
  function MapaRelatorios(): map<string, string>
  {
    map[
      "producao_kwh" := "Gerado (kWh)", "consumo_kwh" := "Consumido (kWh)",
      "injetado_kwh" := "Excedente (kWh)", "economia_reais" := "Economia (R$)",
      "gerado" := "Gerado (kWh)", "consumido" := "Consumido (kWh)",
      "excedente" := "Excedente (kWh)", "eficiencia" := "Eficiencia (%)", "data" := "Data"]
  }

  /** The map of the export page. */
  function MapaExportacao(): map<string, string>
  {
    map[
      "producao_kwh" := "Gerado (kWh)", "consumo_kwh" := "Consumido (kWh)",
      "injetado_kwh" := "Excedente (kWh)", "economia_reais" := "Economia (R$)",
      "data" := "Data", "temperatura_media_c" := "Temperatura (°C)",
      "irradiancia_media_w_m2" := "Irradiação (W/m²)"]
  }

  /** Every mapped name is a fixed point of the normalisation. */
  ghost predicate AlvosFixos(mapa: map<string, string>)
  {
    forall k :: k in mapa ==> Normalizar(mapa, mapa[k]) == mapa[k]
  }

  /** With fixed targets, normalising twice is normalising once. */
  lemma NormalizarIdempotente(mapa: map<string, string>, nome: string)
    requires AlvosFixos(mapa)
    ensures Normalizar(mapa, Normalizar(mapa, nome)) == Normalizar(mapa, nome)
  {
  }

  /** A name with an inner space and none at its ends is no key of a map
      whose keys have no space, so it is kept. */
  lemma ComEspacoInterno(mapa: map<string, string>, t: string, j: nat)
    requires forall k :: k in mapa ==> ' ' !in k
    requires 0 < j < |t| - 1 && t[j] == ' '
    requires !EspacoBranco(t[0]) && !EspacoBranco(t[|t| - 1])
    ensures Normalizar(mapa, t) == t
  {
    var m := Minusculas(t);
    assert !EspacoBranco(m[0]) && !EspacoBranco(m[|m| - 1]);
    StripSemBordas(m);
    assert m[j] == ' ';
  }

  lemma DataFixa(mapa: map<string, string>)
    requires "data" in mapa && mapa["data"] == "Data"
    ensures Normalizar(mapa, "Data") == "Data"
  {
    var m := Minusculas("Data");
    assert m[0] == 'd' && m[1] == 'a' && m[2] == 't' && m[3] == 'a';
    assert m == "data";
    StripSemBordas(m);
  }

  /** A name is kept by a map whose keys have no space when it holds a
      space and has no whitespace at its ends. */
  predicate ComEspaco(t: string)
  {
    ' ' in t && !EspacoBranco(t[0]) && !EspacoBranco(t[|t| - 1])
  }

  /** Keys without spaces, and targets that either hold a space or are
      `Data` (kept by the key `data`), make every target a fixed point. */
  lemma AlvosFixosPorEspaco(mapa: map<string, string>)
    requires forall k :: k in mapa ==> ' ' !in k
    requires forall k :: k in mapa ==> mapa[k] == "Data" || ComEspaco(mapa[k])
    requires "data" in mapa && mapa["data"] == "Data"
    ensures AlvosFixos(mapa)
  {
    forall k | k in mapa
      ensures Normalizar(mapa, mapa[k]) == mapa[k]
    {
      var t := mapa[k];
      if t == "Data" {
        DataFixa(mapa);
      } else {
        var j :| 0 <= j < |t| && t[j] == ' ';
        ComEspacoInterno(mapa, t, j);
      }
    }
  }

  lemma ChavesSemEspacoRelatorios()
    ensures forall k :: k in MapaRelatorios() ==> ' ' !in k
  {
  }

  lemma AlvosRelatorios()
    ensures forall k :: k in MapaRelatorios() ==> MapaRelatorios()[k] == "Data" || ComEspaco(MapaRelatorios()[k])
  {
  }

  /** The report map: every target is a fixed point, so renaming twice
      is renaming once. */
  lemma AlvosFixosRelatorios()
    ensures AlvosFixos(MapaRelatorios())
  {
    ChavesSemEspacoRelatorios();
    AlvosRelatorios();
    AlvosFixosPorEspaco(MapaRelatorios());
  }

  lemma ChavesSemEspacoExportacao()
    ensures forall k :: k in MapaExportacao() ==> ' ' !in k
  {
  }

  lemma AlvosExportacao()
    ensures forall k :: k in MapaExportacao() ==> MapaExportacao()[k] == "Data" || ComEspaco(MapaExportacao()[k])
  {
  }

  /** The export map: every target is a fixed point. */
  lemma AlvosFixosExportacao()
    ensures AlvosFixos(MapaExportacao())
  {
    ChavesSemEspacoExportacao();
    AlvosExportacao();
    AlvosFixosPorEspaco(MapaExportacao());
  }

  /** No ASCII capital letter: `lower()` leaves the name alone. */
  predicate SemMaiusculas(s: string)
  {
    s == [] || (!('A' <= s[0] <= 'Z') && SemMaiusculas(s[1..]))
  }

  lemma {:induction false} MinusculasSemMaiusculas(s: string)
    requires SemMaiusculas(s)
    ensures Minusculas(s) == s
    decreases |s|
  {
    if s != [] {
      MinusculasSemMaiusculas(s[1..]);
      assert Minusculas(s) == [s[0]] + Minusculas(s[1..]);
    }
  }

  /** A key written already clean is found under its own name. */
  lemma ChaveDireta(mapa: map<string, string>, k: string, t: string)
    requires k in mapa && mapa[k] == t && k != [] && SemMaiusculas(k)
    requires !EspacoBranco(k[0]) && !EspacoBranco(k[|k| - 1])
    ensures Normalizar(mapa, k) == t
  {
    MinusculasSemMaiusculas(k);
    StripSemBordas(k);
  }

  lemma ProducaoLimpa()
    ensures SemMaiusculas("producao_kwh")
  {
  }

  lemma ProducaoNoMapa()
    ensures "producao_kwh" in MapaRelatorios() && MapaRelatorios()["producao_kwh"] == "Gerado (kWh)"
  {
  }

  lemma GeradoNoMapa()
    ensures "gerado" in MapaRelatorios() && MapaRelatorios()["gerado"] == "Gerado (kWh)"
  {
  }

  lemma ProducaoCondicoes()
    ensures var k := "producao_kwh";
      k in MapaRelatorios() && MapaRelatorios()[k] == "Gerado (kWh)" && k != [] && SemMaiusculas(k)
      && !EspacoBranco(k[0]) && !EspacoBranco(k[|k| - 1])
  {
    ProducaoLimpa();
    ProducaoNoMapa();
  }

  lemma ProducaoChave()
    ensures Normalizar(MapaRelatorios(), "producao_kwh") == "Gerado (kWh)"
  {
    ProducaoCondicoes();
    ChaveDireta(MapaRelatorios(), "producao_kwh", "Gerado (kWh)");
  }

  lemma GeradoChave()
    ensures Normalizar(MapaRelatorios(), "gerado") == "Gerado (kWh)"
  {
    GeradoNoMapa();
    ChaveDireta(MapaRelatorios(), "gerado", "Gerado (kWh)");
  }

  /** The report map is not injective: the generator's column name and
      the short name of the generation column become the same name. */
  lemma RelatoriosNaoInjetivo()
    ensures Normalizar(MapaRelatorios(), "producao_kwh") == Normalizar(MapaRelatorios(), "gerado")
  {
    ProducaoChave();
    GeradoChave();
  }

  // ---------------------------------------------------------------------
  // Frames

  /** A cell: a number, a text, or a date as a day number. */
  datatype Celula = Numero(r: real) | Texto(s: string) | Dia(d: int)

  datatype Coluna = Coluna(nome: string, valores: seq<Celula>)

  function Nomes(cols: seq<Coluna>): (r: seq<string>)
    ensures |r| == |cols| && forall i :: 0 <= i < |cols| ==> r[i] == cols[i].nome
  {
    seq(|cols|, i requires 0 <= i < |cols| => cols[i].nome)
  }

  /** `df.columns = [col_map.get(clean(col), col) for col in df.columns]`:
      every column renamed, its values and its place kept. */
  function Renomear(mapa: map<string, string>, cols: seq<Coluna>): (r: seq<Coluna>)
    ensures |r| == |cols|
    ensures forall i :: 0 <= i < |cols| ==>
      r[i].valores == cols[i].valores && r[i].nome == Normalizar(mapa, cols[i].nome)
  {
    seq(|cols|, i requires 0 <= i < |cols| => Coluna(Normalizar(mapa, cols[i].nome), cols[i].valores))
  }

  /** Renaming with a map whose targets are fixed points is idempotent. */
  lemma RenomearIdempotente(mapa: map<string, string>, cols: seq<Coluna>)
    requires AlvosFixos(mapa)
    ensures Renomear(mapa, Renomear(mapa, cols)) == Renomear(mapa, cols)
  {
    var r := Renomear(mapa, cols);
    forall i | 0 <= i < |cols|
      ensures Renomear(mapa, r)[i] == r[i]
    {
      NormalizarIdempotente(mapa, cols[i].nome);
    }
  }

  /** A pandas frame: a row count and its columns, updated in place. */
  class Quadro {
    var linhas: nat
    var colunas: seq<Coluna>

    ghost predicate Valid()
      reads this
    {
      Retangular(colunas, linhas)
    }

    /** `df.empty`: no rows or no columns. */
    predicate Vazio()
      reads this
    {
      linhas == 0 || colunas == []
    }

    constructor (linhas: nat, colunas: seq<Coluna>)
      requires forall i :: 0 <= i < |colunas| ==> |colunas[i].valores| == linhas
      ensures Valid()
      ensures this.linhas == linhas && this.colunas == colunas
    {
      this.linhas := linhas;
      this.colunas := colunas;
    }

    /** The renaming loop: `new_cols` is built column by column, then
        assigned to `df.columns`. */
    method RenomearColunas(mapa: map<string, string>)
      requires Valid()
      modifies this`colunas
      ensures Valid()
      ensures colunas == Renomear(mapa, old(colunas))
    {
      var novos: seq<string> := [];
      var i := 0;
      while i < |colunas|
        invariant 0 <= i <= |colunas|
        invariant |novos| == i
        invariant forall k :: 0 <= k < i ==> novos[k] == Normalizar(mapa, colunas[k].nome)
      {
        novos := novos + [Normalizar(mapa, colunas[i].nome)];
        i := i + 1;
      }
      var cols := colunas;
      colunas := seq(|cols|, k requires 0 <= k < |cols| => Coluna(novos[k], cols[k].valores));
    }

    /** `df[nome] = valores` for a name not yet present: a new last column. */
    method AcrescentarColuna(nome: string, valores: seq<Celula>)
      requires Valid() && |valores| == linhas
      modifies this`colunas
      ensures Valid()
      ensures colunas == old(colunas) + [Coluna(nome, valores)]
    {
      colunas := colunas + [Coluna(nome, valores)];
    }

    /** `df[nome] = valores` for a present name: the first column with that
        name gets the new values in place. */
    method SubstituirColuna(i: nat, valores: seq<Celula>)
      requires Valid() && i < |colunas| && |valores| == linhas
      modifies this`colunas
      ensures Valid()
      ensures colunas == old(colunas)[i := Coluna(old(colunas)[i].nome, valores)]
    {
      colunas := colunas[i := Coluna(colunas[i].nome, valores)];
    }

    /** Lines 224-227 of the report page: the efficiency column is added
        when absent and generation is present; `false` when pandas would
        raise on a non-numeric generation column. */
    method AdicionarEficiencia() returns (ok: bool)
      requires Valid()
      modifies this`colunas
      ensures Valid()
      ensures ok == ComEficiencia(old(colunas)).Some?
      ensures ok ==> colunas == ComEficiencia(old(colunas)).value
      ensures !ok ==> colunas == old(colunas)
    {
      if "Eficiencia (%)" in Nomes(colunas) {
        return true;
      }
      var p := Posicao(colunas, "Gerado (kWh)");
      if p.None? {
        return true;
      }
      var g := Numeros(colunas[p.value].valores);
      if g.None? {
        return false;
      }
      AcrescentarColuna("Eficiencia (%)", Numericas(Eficiencia(g.value)));
      return true;
    }

    /** Lines 229-230: a saving column of zeros when absent. */
    method AdicionarEconomia()
      requires Valid()
      modifies this`colunas
      ensures Valid()
      ensures colunas == ComEconomia(old(colunas), linhas)
    {
      if "Economia (R$)" !in Nomes(colunas) {
        AcrescentarColuna("Economia (R$)", seq(linhas, _ => Numero(0.0)));
      }
    }

    /** Lines 232-236: dates and weekday names when `Data` is present and
        `Dia_Semana` is not; a failed conversion is swallowed. */
    method AdicionarDiaSemana(paraData: Celula -> Option<int>, nomeDoDia: int -> string)
      requires Valid()
      modifies this`colunas
      ensures Valid()
      ensures colunas == ComDiaSemana(old(colunas), paraData, nomeDoDia)
    {
      if "Dia_Semana" in Nomes(colunas) {
        return;
      }
      var p := Posicao(colunas, "Data");
      if p.None? {
        return;
      }
      var ds := Datas(colunas[p.value].valores, paraData);
      if ds.None? {
        return;
      }
      var d := ds.value;
      SubstituirColuna(p.value, seq(|d|, k requires 0 <= k < |d| => Dia(d[k])));
      AcrescentarColuna("Dia_Semana", seq(|d|, k requires 0 <= k < |d| => Texto(nomeDoDia(d[k]))));
    }
  }

  /** `padronizar_colunas_exportacao(df)`: a missing or empty frame comes
      back unchanged; otherwise its columns are renamed in place and the
      same object is returned. */
  method PadronizarColunasExportacao(df: Quadro?) returns (r: Quadro?)
    requires df != null ==> df.Valid()
    modifies df
    ensures r == df
    ensures df != null ==> df.Valid() && df.linhas == old(df.linhas)
    ensures df != null && old(df.Vazio()) ==> df.colunas == old(df.colunas)
    ensures df != null && !old(df.Vazio()) ==> df.colunas == Renomear(MapaExportacao(), old(df.colunas))
  {
    if df == null || df.Vazio() {
      return df;
    }
    df.RenomearColunas(MapaExportacao());
    return df;
  }

  /** The standardisation block of the report page (lines 211-236): a
      missing or empty frame is left alone; otherwise its columns are
      renamed in place and the derived columns added. `false` when the
      efficiency step raises, after the renaming already happened. */
  method PadronizarRelatorio(df: Quadro?, paraData: Celula -> Option<int>, nomeDoDia: int -> string) returns (ok: bool)
    requires df != null ==> df.Valid()
    modifies df
    ensures df != null ==> df.Valid() && df.linhas == old(df.linhas)
    ensures df == null || old(df.Vazio()) ==> ok
    ensures df != null && old(df.Vazio()) ==> df.colunas == old(df.colunas)
    ensures df != null && !old(df.Vazio()) ==>
      var p := Padronizado(old(df.colunas), df.linhas, paraData, nomeDoDia);
      && ok == p.Some?
      && (ok ==> df.colunas == p.value)
      && (!ok ==> df.colunas == Renomear(MapaRelatorios(), old(df.colunas)))
  {
    if df == null || df.Vazio() {
      return true;
    }
    df.RenomearColunas(MapaRelatorios());
    ok := df.AdicionarEficiencia();
    if !ok {
      return;
    }
    df.AdicionarEconomia();
    df.AdicionarDiaSemana(paraData, nomeDoDia);
  }

  // ---------------------------------------------------------------------
  // Derived columns of the report page

  /** Position of the first column named `nome`, if any. */
  function Posicao(cols: seq<Coluna>, nome: string): (r: Option<nat>)
    ensures r.Some? ==> r.value < |cols| && cols[r.value].nome == nome
    ensures r.Some? ==> forall k :: 0 <= k < r.value ==> cols[k].nome != nome
    ensures r.None? <==> nome !in Nomes(cols)
  {
    if cols == [] then None
    else if cols[0].nome == nome then Some(0)
    else match Posicao(cols[1..], nome)
      case None => None
      case Some(i) => Some(i + 1)
  }

  /** The values of a column as numbers, when every cell is one. */
  function Numeros(vals: seq<Celula>): (r: Option<seq<real>>)
    ensures r.Some? <==> forall i :: 0 <= i < |vals| ==> vals[i].Numero?
    ensures r.Some? ==> |r.value| == |vals| && forall i :: 0 <= i < |vals| ==> r.value[i] == vals[i].r
  {
    if forall i :: 0 <= i < |vals| ==> vals[i].Numero? then
      Some(seq(|vals|, i requires 0 <= i < |vals| && vals[i].Numero? => vals[i].r))
    else None
  }

  function Maximo(s: seq<real>): (m: real)
    requires s != []
    ensures forall i :: 0 <= i < |s| ==> s[i] <= m
    ensures exists i :: 0 <= i < |s| && s[i] == m
  {
    if |s| == 1 then s[0]
    else
      var n := |s| - 1;
      var m := Maximo(s[..n]);
      assert forall i :: 0 <= i < n ==> s[..n][i] == s[i];
      if s[n] > m then s[n] else m
  }

  /** `Gerado / max * 100` when the maximum is positive, else 0. A frame
      with no rows has a NaN maximum, so it takes the `else 0` branch and
      gets an empty column. */
  function Eficiencia(g: seq<real>): (e: seq<real>)
    ensures |e| == |g|
  {
    if g == [] then [] else
    var m := Maximo(g);
    if m > 0.0 then seq(|g|, i requires 0 <= i < |g| => g[i] / m * 100.0)
    else seq(|g|, i requires 0 <= i < |g| => 0.0)
  }

  /** Over non-negative generation every efficiency lies in [0, 100]; a
      positive maximum scores exactly 100 on every row that attains it,
      and a non-positive maximum gives 0 everywhere. */
  lemma EficienciaLimites(g: seq<real>)
    requires g != []
    requires forall i :: 0 <= i < |g| ==> g[i] >= 0.0
    ensures forall i :: 0 <= i < |g| ==> 0.0 <= Eficiencia(g)[i] <= 100.0
    ensures Maximo(g) > 0.0 ==> forall i :: 0 <= i < |g| && g[i] == Maximo(g) ==> Eficiencia(g)[i] == 100.0
    ensures Maximo(g) <= 0.0 ==> forall i :: 0 <= i < |g| ==> Eficiencia(g)[i] == 0.0
  {
    var m := Maximo(g);
    var e := Eficiencia(g);
    if m > 0.0 {
      forall i | 0 <= i < |g|
        ensures 0.0 <= e[i] <= 100.0 && (g[i] == m ==> e[i] == 100.0)
      {
        assert e[i] == g[i] / m * 100.0;
        Fracao(g[i], m);
      }
    }
  }

  /** A share of a positive maximum, as a percentage. */
  lemma Fracao(x: real, m: real)
    requires 0.0 <= x <= m && m > 0.0
    ensures 0.0 <= x / m * 100.0 <= 100.0
    ensures x == m ==> x / m * 100.0 == 100.0
  {
    var q := x / m;
    assert q * m == x;
    assert (q - 1.0) * m == x - m;
    if x == m {
      DivSelf(m);
    }
  }

  lemma DivSelf(m: real)
    requires m > 0.0
    ensures m / m == 1.0
  {
  }

  function Numericas(s: seq<real>): (r: seq<Celula>)
    ensures |r| == |s| && forall i :: 0 <= i < |s| ==> r[i] == Numero(s[i])
  {
    seq(|s|, i requires 0 <= i < |s| => Numero(s[i]))
  }

  /** The efficiency step: added only when absent and when `Gerado (kWh)`
      is present; `None` when that column is not numeric (pandas raises
      and the page stops). */
  function ComEficiencia(cols: seq<Coluna>): Option<seq<Coluna>>
  {
    if "Eficiencia (%)" in Nomes(cols) then Some(cols)
    else match Posicao(cols, "Gerado (kWh)")
      case None => Some(cols)
      case Some(i) =>
        match Numeros(cols[i].valores)
          case None => None
          case Some(g) =>
            Some(cols + [Coluna("Eficiencia (%)", Numericas(Eficiencia(g)))])
  }

  /** The saving step: a column of zeros, only when absent. */
  function ComEconomia(cols: seq<Coluna>, linhas: nat): seq<Coluna>
  {
    if "Economia (R$)" in Nomes(cols) then cols
    else cols + [Coluna("Economia (R$)", seq(linhas, _ => Numero(0.0)))]
  }

  /** `pd.to_datetime` of a column: every cell converted, or failure. */
  function Datas(vals: seq<Celula>, paraData: Celula -> Option<int>): (r: Option<seq<int>>)
    ensures r.Some? ==> |r.value| == |vals| && forall i :: 0 <= i < |vals| ==> paraData(vals[i]) == Some(r.value[i])
    ensures r.None? ==> exists i :: 0 <= i < |vals| && paraData(vals[i]).None?
  {
    if vals == [] then Some([])
    else match Datas(vals[..|vals| - 1], paraData)
      case None => None
      case Some(ds) =>
        match paraData(vals[|vals| - 1])
          case None => None
          case Some(d) => Some(ds + [d])
  }

  /** The weekday step: only when `Data` is present and `Dia_Semana` is
      not; the first `Data` column becomes dates and `Dia_Semana` holds
      their weekday names. A failed conversion changes nothing. */
  function ComDiaSemana(cols: seq<Coluna>, paraData: Celula -> Option<int>, nomeDoDia: int -> string): seq<Coluna>
  {
    if "Dia_Semana" in Nomes(cols) then cols
    else match Posicao(cols, "Data")
      case None => cols
      case Some(i) =>
        match Datas(cols[i].valores, paraData)
          case None => cols
          case Some(ds) =>
            cols[i := Coluna("Data", seq(|ds|, k requires 0 <= k < |ds| => Dia(ds[k])))]
            + [Coluna("Dia_Semana", seq(|ds|, k requires 0 <= k < |ds| => Texto(nomeDoDia(ds[k]))))]
  }

  /** The whole standardisation block of the report page on a non-empty
      frame: rename, then the efficiency, saving and weekday steps.
      `None` when the efficiency step raises. */
  function Padronizado(cols: seq<Coluna>, linhas: nat, paraData: Celula -> Option<int>, nomeDoDia: int -> string): Option<seq<Coluna>>
  {
    match ComEficiencia(Renomear(MapaRelatorios(), cols))
      case None => None
      case Some(c) => Some(ComDiaSemana(ComEconomia(c, linhas), paraData, nomeDoDia))
  }

  /** Every column of a frame with `linhas` rows holds `linhas` cells. */
  ghost predicate Retangular(cols: seq<Coluna>, linhas: nat)
  {
    forall i :: 0 <= i < |cols| ==> |cols[i].valores| == linhas
  }

  /** `r` keeps the names of the columns of `cols` in their places and
      appends only columns named `novo`. */
  ghost predicate Acrescenta(r: seq<Coluna>, cols: seq<Coluna>, novo: string)
  {
    && |cols| <= |r| <= |cols| + 1
    && (forall i :: 0 <= i < |cols| ==> r[i].nome == cols[i].nome)
    && (forall k :: |cols| <= k < |r| ==> r[k].nome == novo)
  }

  /** A name other than the appended one is present after the step
      exactly when it was present before. */
  lemma NomeAcrescido(r: seq<Coluna>, cols: seq<Coluna>, novo: string, nome: string)
    requires Acrescenta(r, cols, novo)
    ensures nome in Nomes(cols) ==> nome in Nomes(r)
    ensures nome != novo ==> (nome in Nomes(r) <==> nome in Nomes(cols))
  {
    if nome in Nomes(cols) {
      var i :| 0 <= i < |cols| && Nomes(cols)[i] == nome;
      assert Nomes(r)[i] == nome;
    }
    if nome in Nomes(r) && nome != novo {
      var i :| 0 <= i < |r| && Nomes(r)[i] == nome;
      assert Nomes(cols)[i] == nome;
    }
  }

  /** The efficiency step appends at most its own column, of one cell
      per row, and afterwards the column is there exactly when it was
      there or generation was. It fails exactly when it must compute the
      column and generation is not numeric. */
  lemma ComEficienciaForma(cols: seq<Coluna>, linhas: nat)
    requires Retangular(cols, linhas)
    ensures ComEficiencia(cols).Some? ==>
      var r := ComEficiencia(cols).value;
      && Acrescenta(r, cols, "Eficiencia (%)")
      && r[..|cols|] == cols
      && Retangular(r, linhas)
      && ("Eficiencia (%)" in Nomes(r) <==> "Eficiencia (%)" in Nomes(cols) || "Gerado (kWh)" in Nomes(cols))
    ensures ComEficiencia(cols).None? <==>
      && "Eficiencia (%)" !in Nomes(cols)
      && "Gerado (kWh)" in Nomes(cols)
      && var i := Posicao(cols, "Gerado (kWh)").value;
        Numeros(cols[i].valores).None?
  {
    if "Eficiencia (%)" in Nomes(cols) {
      Manter(cols, linhas, "Eficiencia (%)");
    } else {
      match Posicao(cols, "Gerado (kWh)")
      case None =>
        Manter(cols, linhas, "Eficiencia (%)");
      case Some(i) =>
        match Numeros(cols[i].valores)
        case None =>
        case Some(g) =>
          assert |g| == linhas;
          Anexar(cols, Coluna("Eficiencia (%)", Numericas(Eficiencia(g))), linhas);
    }
  }

  /** A step that changes nothing appends nothing. */
  lemma Manter(cols: seq<Coluna>, linhas: nat, novo: string)
    requires Retangular(cols, linhas)
    ensures Acrescenta(cols, cols, novo) && cols[..|cols|] == cols
  {
  }

  /** Appending a column of one cell per row keeps the frame rectangular
      and puts its name among the columns. */
  lemma Anexar(cols: seq<Coluna>, c: Coluna, linhas: nat)
    requires Retangular(cols, linhas) && |c.valores| == linhas
    ensures var r := cols + [c];
      && Acrescenta(r, cols, c.nome)
      && r[..|cols|] == cols
      && Retangular(r, linhas)
      && c.nome in Nomes(r)
  {
    assert Nomes(cols + [c])[|cols|] == c.nome;
  }

  /** The saving step keeps every column and leaves the frame with a
      saving column; a new one is all zeros. */
  lemma ComEconomiaForma(cols: seq<Coluna>, linhas: nat)
    requires Retangular(cols, linhas)
    ensures var r := ComEconomia(cols, linhas);
      && Acrescenta(r, cols, "Economia (R$)")
      && r[..|cols|] == cols
      && Retangular(r, linhas)
      && "Economia (R$)" in Nomes(r)
      && ("Economia (R$)" in Nomes(cols) ==> r == cols)
      && ("Economia (R$)" !in Nomes(cols) ==> r[|cols|].valores == seq(linhas, _ => Numero(0.0)))
  {
    var r := ComEconomia(cols, linhas);
    if "Economia (R$)" !in Nomes(cols) {
      assert Nomes(r)[|cols|] == "Economia (R$)";
    }
  }

  /** The weekday step keeps every column's name, place and size; only
      the first `Data` column may get new values (its dates), and at most
      a `Dia_Semana` column is appended, one name per row. */
  lemma ComDiaSemanaForma(cols: seq<Coluna>, linhas: nat, paraData: Celula -> Option<int>, nomeDoDia: int -> string)
    requires Retangular(cols, linhas)
    ensures var r := ComDiaSemana(cols, paraData, nomeDoDia);
      && Acrescenta(r, cols, "Dia_Semana")
      && Retangular(r, linhas)
      && (forall i :: 0 <= i < |cols| && cols[i].nome != "Data" ==> r[i] == cols[i])
      && ("Dia_Semana" in Nomes(cols) ==> r == cols)
  {
  }

  /** Three appending steps in a row, of which only the last may change
      values, and only those of `Data`. */
  lemma TresPassos(n: seq<Coluna>, e: seq<Coluna>, c: seq<Coluna>, r: seq<Coluna>)
    requires Acrescenta(e, n, "Eficiencia (%)") && e[..|n|] == n
    requires Acrescenta(c, e, "Economia (R$)") && c[..|e|] == e
    requires Acrescenta(r, c, "Dia_Semana")
    requires forall i :: 0 <= i < |c| && c[i].nome != "Data" ==> r[i] == c[i]
    requires "Economia (R$)" in Nomes(c)
    ensures |n| <= |r| <= |n| + 3
    ensures forall i :: 0 <= i < |n| ==> r[i].nome == n[i].nome
    ensures forall i :: 0 <= i < |n| && n[i].nome != "Data" ==> r[i].valores == n[i].valores
    ensures "Economia (R$)" in Nomes(r)
    ensures "Eficiencia (%)" in Nomes(r) <==> "Eficiencia (%)" in Nomes(e)
  {
    NomeAcrescido(r, c, "Dia_Semana", "Economia (R$)");
    NomeAcrescido(c, e, "Economia (R$)", "Eficiencia (%)");
    NomeAcrescido(r, c, "Dia_Semana", "Eficiencia (%)");
    forall i | 0 <= i < |n|
      ensures r[i].nome == n[i].nome
      ensures n[i].nome != "Data" ==> r[i].valores == n[i].valores
    {
      assert c[i] == e[i] == n[i];
    }
  }

  /** The standardised report frame: the renamed columns in their places
      (only `Data` may hold new values), at most three columns appended,
      a saving column always present, an efficiency column exactly when
      one was there or generation was, and still `linhas` cells in every
      column. */
  lemma PadronizadoForma(cols: seq<Coluna>, linhas: nat, paraData: Celula -> Option<int>, nomeDoDia: int -> string)
    requires Retangular(cols, linhas)
    ensures Padronizado(cols, linhas, paraData, nomeDoDia).Some? ==>
      var r := Padronizado(cols, linhas, paraData, nomeDoDia).value;
      var n := Renomear(MapaRelatorios(), cols);
      && |cols| <= |r| <= |cols| + 3
      && (forall i :: 0 <= i < |cols| ==> r[i].nome == n[i].nome)
      && (forall i :: 0 <= i < |cols| && n[i].nome != "Data" ==> r[i].valores == cols[i].valores)
      && "Economia (R$)" in Nomes(r)
      && ("Eficiencia (%)" in Nomes(r) <==> "Eficiencia (%)" in Nomes(n) || "Gerado (kWh)" in Nomes(n))
      && Retangular(r, linhas)
  {
    var n := Renomear(MapaRelatorios(), cols);
    ComEficienciaForma(n, linhas);
    if ComEficiencia(n).Some? {
      var e := ComEficiencia(n).value;
      var c := ComEconomia(e, linhas);
      ComEconomiaForma(e, linhas);
      ComDiaSemanaForma(c, linhas, paraData, nomeDoDia);
      TresPassos(n, e, c, ComDiaSemana(c, paraData, nomeDoDia));
    }
  }
}
