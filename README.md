# Solar dashboard: alerts, notifications, tables and the user registry

This project models the decision logic of a Streamlit dashboard for a
solar installation, and proves properties of that model in Dafny.

- **Alert classifier** (`alertas.dfy`, module `Alertas`). `SistemaAlertas` keeps a threshold map and an alert list. Every analysis of a day's hourly surplus clears the list and rebuilds it with three ordered rules:
  - the day's total balance;
  - the share of deficit hours;
  - one critical alert per hour below the critical deficit.

  The module also covers the statistics by kind, the display filter and the recommendation panel.
- **Notification list** (`notificacoes.dfy`, module `Notificacoes`). `NotificacaoRealTime` keeps an append-only list in the session, with ids of the form length + 1. It covers:
  - marking an entry as read;
  - the unread filter;
  - pruning by age;
  - the three fixed-threshold surplus rules;
  - the toast level and the five-entry side panel.
- **Alerts page** (`pagina_alertas.dfy`, module `PaginaAlertas`):
  - the inclusive day count;
  - the 24-row hourly history;
  - the per-hour status and bar colour;
  - the overview loop, which reuses the page's classifier;
  - the per-date alert history, built from fresh classifiers;
  - the history filter.
- **Aggregates and generators** (`metricas.dfy`, module `Metricas`, for `utils.py`):
  - the KPI dictionary;
  - the row structure of the comparative, per-period and report generators, with their random draws as parameters.
- **Column standardisation** (`colunas.dfy`, module `Colunas`). The frame is a class `Quadro` whose column list is updated in place. Each name is lower-cased, stripped and looked up in a map. The report page then adds efficiency, saving and weekday columns.
- **Period choices** (`periodos.dfy`, module `Periodos`): the report page's period-to-days mapping, its data source, and the export page's `dias_map`.
- **User registry** (`usuarios.dfy`, module `Usuarios`). The class `ArquivoUsuarios` stands for `usuarios.yaml`. It covers:
  - the registration shared by `Home.py`, `2_Configuracoes.py` and `2_Cadastrar_Usuario.py`;
  - the notification a registration adds;
  - the `verificar_alertas_sistema` rules.
- **Home page session** (`sessao.dfy`, module `Sessao`): the login flag's initialisation, logout, and the three login outcomes.
- **Settings page** (`ajustes.dfy`, module `Ajustes`):
  - the profile update;
  - the password-change chain;
  - the export period;
  - the page and admin gates.
- `common.dfy` (module `Common`) holds the shared helpers:
  - `Option` and the message arguments;
  - sums and threshold counts;
  - percentage and mean;
  - rounding to hundredths;
  - number-to-text.

Modelling choices:
- kWh values are `real`.
- A frame is a sequence of records, or a list of named columns.
- The clock, the random draws, the password hasher and the date parser are parameters.
- Dates are day numbers.

## Model

| member | source | states |
|---|---|---|
| Alertas.SistemaAlertas.constructor | painel_admin/alertas.py:8-15 | the alert list starts empty and the thresholds are deficit_critico −2.0, deficit_moderado 0.0, horas_criticas 6, percentual_critico 25.0 |
| Alertas.NovoAlerta | painel_admin/alertas.py:17-28 | the record keeps tipo, message and value; an empty `horario` falls back to the clock's `%H:%M` label, a non-empty one is kept |
| Alertas.SistemaAlertas.AdicionarAlerta | painel_admin/alertas.py:17-28 | appends exactly that one record to the list |
| Alertas.ColunaExcedente | painel_admin/alertas.py:34-39 | a surplus column exists iff the frame has one or has both Gerado and Consumido; it has one value per row |
| Alertas.ExcedenteDerivado | painel_admin/alertas.py:36-37 | a derived surplus is Gerado − Consumido per row, not rounded, and its sum is total generation minus total consumption |
| Alertas.ResumoCoerente | painel_admin/alertas.py:41-49 | the total is the sum; deficit hours ≤ hours without surplus ≤ rows; the percentage lies in [0, 100]; an empty day sums to 0 with percentage 0; each count is 0 exactly when no row qualifies |
| Alertas.SistemaAlertas.AnalisarExcedente | painel_admin/alertas.py:30-53 | without surplus data it returns nothing and leaves the list alone; otherwise it returns the summary and the list becomes exactly the day's alerts |
| Alertas.SistemaAlertas.GerarAlertasExcedente | painel_admin/alertas.py:55-111 | the list is replaced by the total-balance alert, then the duration alert, then the per-hour alerts |
| Alertas.SistemaAlertas.AnalisePontual | painel_admin/alertas.py:89-111 | the row loop appends exactly the per-hour alerts, in row order |
| Alertas.RegraTotal | painel_admin/alertas.py:61-79 | at most one alert: critical iff total < deficit_critico, moderate iff deficit_critico ≤ total < 0, atencao iff total = 0, none iff total > 0; it carries the total and the clock label |
| Alertas.RegraTotalLimitePositivo | painel_admin/alertas.py:62-79 | with a positive deficit_critico a zero total is classed critical, not equilibrium |
| Alertas.RegraDuracao | painel_admin/alertas.py:81-87 | one critical alert with the percentage iff percentual_deficit > percentual_critico (strict), none otherwise |
| Alertas.RegraHoraria | painel_admin/alertas.py:89-111 | as many per-hour alerts as rows below deficit_critico, each critical with a value below it |
| Alertas.RegraHorariaCobre | painel_admin/alertas.py:103-111 | every row below the threshold has its alert, with that row's hour label and surplus |
| Alertas.RegraHorariaMonotona | painel_admin/alertas.py:105 | lowering deficit_critico never increases the number of per-hour alerts |
| Alertas.AlertasDoDiaForma | painel_admin/alertas.py:55-111 | the list's length is the sum of the three rules' counts, so at most rows + 2; an empty day yields exactly one atencao alert |
| Alertas.LimitesLidos | painel_admin/alertas.py:62-105 | only deficit_critico and percentual_critico are read: configurations agreeing on them give the same alerts |
| Alertas.ReanaliseEstavel | painel_admin/alertas.py:55-111 | re-analysing the same rows with the same thresholds at another moment gives the same kinds, messages and values in the same order |
| Alertas.AnalisarDuasVezes | painel_admin/alertas.py:59 | two analyses of the same frame at the same moment leave identical lists: the list is replaced, not accumulated |
| Alertas.RegrasEstaveis | painel_admin/alertas.py:61-87 | the total and duration rules depend on the clock only through timestamp and label |
| Alertas.HorariosEstaveis | painel_admin/alertas.py:89-111 | the per-hour alerts are the same at any moment; their labels stay too when no hour label is empty |
| Alertas.SistemaAlertas.ConfigurarLimites | painel_admin/alertas.py:214-215 | the given keys are overwritten and every other key keeps its value |
| Alertas.SistemaAlertas.GetEstatisticas | painel_admin/alertas.py:217-223 | total is the list's length, the three counts add up to it, and criticos is the size of the critical filter |
| Alertas.ContagensSomam | painel_admin/alertas.py:217-223 | every alert has exactly one of the three kinds |
| Alertas.FiltrarTipos | painel_admin/alertas.py:139-142 | keeps exactly the alerts whose kind is selected, never more than the list |
| Alertas.FiltrarTiposConcat | painel_admin/alertas.py:139-142 | the filter keeps the list's order and repeated alerts: it distributes over concatenation |
| Alertas.FiltrarTiposConta | painel_admin/alertas.py:140 | filtering by one kind keeps as many alerts as that kind's count |
| Alertas.FiltrarVisualizacao | painel_admin/alertas.py:136-142 | "Apenas Críticos" keeps exactly the critical ones, "Críticos e Moderados" exactly critical and moderate, anything else the whole list |
| Alertas.EscolherRecomendacao | painel_admin/alertas.py:175-207 | immediate action iff some critical alert; suggestions iff none critical and some moderate; optimised iff neither and no hour without surplus (or no summary) |
| Alertas.RecomendacaoDeficit | painel_admin/alertas.py:181-197 | a negative daily total always leads to immediate action or suggestions |
| Alertas.RecomendacaoCritica | painel_admin/alertas.py:184-190 | one hour below the critical deficit forces immediate action |
| Alertas.RecomendacaoOtimizadaSoComExcedente | painel_admin/alertas.py:205-207 | "optimised" implies a surplus in every hour |
| Alertas.RecomendacaoOtimizada | painel_admin/alertas.py:199-207 | conversely, a non-empty day with surplus every hour is "optimised" under non-negative percentage and non-positive deficit thresholds |
| Notificacoes.NotificacaoRealTime.constructor | painel_admin/notificacoes.py:6-10 | the list and the last-check time are created only when absent; existing notifications are kept |
| Notificacoes.Adicionar | painel_admin/notificacoes.py:12-22 | earlier entries unchanged, one unread entry appended with id = previous length + 1 |
| Notificacoes.NotificacaoRealTime.AdicionarNotificacao | painel_admin/notificacoes.py:12-22 | the session list becomes the list with that entry appended |
| Notificacoes.AdicionarVariosAcrescenta | painel_admin/notificacoes.py:12-22 | successive appends keep the prefix and number the new entries consecutively |
| Notificacoes.IdsSequenciaisPreservados | painel_admin/notificacoes.py:14 | without removals the k-th entry has id k, after appending and after marking read |
| Notificacoes.IdsRepetemAposLimpeza | painel_admin/notificacoes.py:14-38 | after pruning, a new entry can get the id of an entry still in the list |
| Notificacoes.MarcarPrimeira | painel_admin/notificacoes.py:24-28 | the list keeps its length |
| Notificacoes.MarcarPrimeiraEm | painel_admin/notificacoes.py:24-28 | only the first entry with the id becomes read, nothing else changes |
| Notificacoes.MarcarPrimeiraAusente | painel_admin/notificacoes.py:24-28 | an unknown id changes nothing |
| Notificacoes.NotificacaoRealTime.MarcarComoLida | painel_admin/notificacoes.py:24-28 | the session list becomes the list with the first match marked read |
| Notificacoes.NaoLidas | painel_admin/notificacoes.py:30-31 | exactly the unread entries |
| Notificacoes.NaoLidasConcat | painel_admin/notificacoes.py:30-31 | the filter keeps insertion order: it distributes over concatenation |
| Notificacoes.NaoLidasAposAdicionar | painel_admin/notificacoes.py:12-31 | a new notification appears last among the unread |
| Notificacoes.NotificacaoRealTime.ObterNaoLidas | painel_admin/notificacoes.py:30-31 | returns exactly the unread entries of the session list |
| Notificacoes.Recentes | painel_admin/notificacoes.py:33-38 | an entry survives iff its timestamp is strictly after the limit; never more entries than before |
| Notificacoes.RecentesConcat | painel_admin/notificacoes.py:35-38 | pruning keeps the list's order and repeated entries: it distributes over concatenation |
| Notificacoes.NotificacaoRealTime.LimparNotificacoesAntigas | painel_admin/notificacoes.py:33-38 | the session list becomes the entries newer than now − horas |
| Notificacoes.RegrasExcedente | painel_admin/notificacoes.py:63-89 | 0–3 entries: high iff total < −5, medium iff deficit hours > 12, low iff total ≤ 0; with total < −5 the first is high and the last low |
| Notificacoes.NotificacaoRealTime.VerificarAlertasExcedente | painel_admin/notificacoes.py:63-89 | appends exactly the rule's requests, computed from the day's sum and deficit-hour count |
| Notificacoes.NivelToast | painel_admin/notificacoes.py:40-46 | alta → error, media → warning, anything else → info |
| Notificacoes.Painel | painel_admin/notificacoes.py:49-54 | the panel shows the last min(5, unread) unread entries |
| PaginaAlertas.PeriodoInclusivo | painel_admin/pages/5_Alertas.py:40-92 | with the history of `NumDias(inicio, fim)` days, every date from inicio to fim, both ends included, has its 24 hourly rows and every other date has none |
| PaginaAlertas.LinhasDoDia | painel_admin/pages/5_Alertas.py:53-68 | 24 rows, hours 0..23, all of that date |
| PaginaAlertas.RegistroExato | painel_admin/pages/5_Alertas.py:60-68 | consumption is at least 0.5 and the surplus is the difference of the rounded readings |
| PaginaAlertas.HistoricoForma | painel_admin/pages/5_Alertas.py:43-75 | 24 rows per day, day-major and hour-minor; no day gives the empty frame |
| PaginaAlertas.GerarDadosHistoricos | painel_admin/pages/5_Alertas.py:43-75 | the loop builds exactly the history of the inclusive day count |
| PaginaAlertas.VinteEQuatroPorDia | painel_admin/pages/5_Alertas.py:92 | selecting a date in the period gives 24 rows, outside it none |
| PaginaAlertas.StatusECor | painel_admin/pages/5_Alertas.py:157-163 | Crítico iff x < deficit_critico, Déficit iff deficit_critico ≤ x < 0, Normal otherwise; red/orange/green exactly on the same cut-offs |
| PaginaAlertas.CriticosIgualAlertasHorarios | painel_admin/pages/5_Alertas.py:157-165 | the number of "Crítico" rows equals the number of per-hour alerts of the classifier |
| PaginaAlertas.CriticosSaoAbaixo | painel_admin/pages/5_Alertas.py:117 | the critical rows are the rows below the threshold |
| PaginaAlertas.ResumosDoPeriodo | painel_admin/pages/5_Alertas.py:189-199 | one summary per date with data, never more than the dates |
| PaginaAlertas.UltimaDataComDados | painel_admin/pages/5_Alertas.py:190-196 | the last date with rows, or none exactly when no date has rows |
| PaginaAlertas.ResumosDoPeriodoCorretos | painel_admin/pages/5_Alertas.py:189-195 | every overview summary belongs to a date of the period that has rows, and is the analysis of exactly that date's rows |
| PaginaAlertas.ResumosDoPeriodoCompletos | painel_admin/pages/5_Alertas.py:189-195 | every date of the period that has rows gets a summary in the overview |
| PaginaAlertas.UltimaDataEhAUltima | painel_admin/pages/5_Alertas.py:190-196 | the date the overview ends on has rows, and no later date of the period has any |
| PaginaAlertas.VisaoGeral | painel_admin/pages/5_Alertas.py:189-199 | returns the summaries; the page classifier's list ends as the alerts of the last date with data, or is untouched |
| PaginaAlertas.DiasDeficitZero | painel_admin/pages/5_Alertas.py:253 | no deficit day iff every day's total is ≥ 0 |
| PaginaAlertas.LimitesDaPagina | painel_admin/pages/5_Alertas.py:25-35 | the sliders' values are the thresholds the rules read |
| PaginaAlertas.Datar | painel_admin/pages/5_Alertas.py:286-288 | every collected alert is tagged with its date, order kept |
| PaginaAlertas.AcrescentarDatados | painel_admin/pages/5_Alertas.py:286-288 | the loop appends exactly the tagged alerts |
| PaginaAlertas.AlertasDeUmaData | painel_admin/pages/5_Alertas.py:275-288 | a fresh classifier with the page's limits adds exactly that date's alerts |
| PaginaAlertas.HistoricoAlertas | painel_admin/pages/5_Alertas.py:273-288 | the history is the concatenation of the per-date blocks |
| PaginaAlertas.HistoricoPorData | painel_admin/pages/5_Alertas.py:274-288 | selecting one date from the history gives exactly the alerts of that date's rows |
| PaginaAlertas.FiltrarHistorico | painel_admin/pages/5_Alertas.py:329-331 | an alert is kept iff its kind is selected and the date filter is "Todas" or matches |
| Metricas.CalcularMetricas | painel_admin/utils.py:47-65 | none iff the frame is empty; totals are column sums, means are sum / n; days with surplus is the number of rows with surplus > 0 (≤ n); the percentage is Percentual(that count, n), so p · n = 100 · count (Common.PercentualProporcao), in [0, 100] |
| Metricas.MelhorEPiorDia | painel_admin/utils.py:59-60 | best and worst day are the dates of the first rows with maximum and minimum generation |
| Metricas.IndiceMax | painel_admin/utils.py:59 | first index of a maximum |
| Metricas.IndiceMin | painel_admin/utils.py:60 | first index of a minimum |
| Metricas.PercentualExcedenteExtremos | painel_admin/utils.py:61-62 | 100 iff every day has surplus > 0; 0 iff none has |
| Metricas.DerivadosCoerentes | painel_admin/utils.py:84-87 | rounded surplus and saving agree with the rounded readings within rounding, and a positive raw surplus never shows negative |
| Metricas.MesesDoAno | painel_admin/utils.py:72-74 | one row per month 1..ultimo, in order |
| Metricas.LinhasDoAno | painel_admin/utils.py:72-88 | the inner loop stops after the current month of the current year, 12 months otherwise |
| Metricas.GerarDadosComparativo | painel_admin/utils.py:67-90 | the nested loop builds exactly the comparative table |
| Metricas.ComparativoAnosCompletos | painel_admin/utils.py:71-74 | full years give 12 rows each, year-major and month-minor |
| Metricas.ComparativoForma | painel_admin/utils.py:67-90 | 12·(anos − 1) + current month rows, chronological, ending at the current month; none when anos ≤ 0 |
| Metricas.PeriodoFormato | painel_admin/utils.py:83 | the label is `str(ano)`, a dash, then the month's tens and units digits, which read back as the month |
| Metricas.PorPeriodo | painel_admin/utils.py:35-44 | one row per month end, each from its own draw |
| Metricas.GerarDadosPorPeriodo | painel_admin/utils.py:27-45 | a table iff tipo_periodo is "mensal", built by the loop |
| Metricas.GerarDadosRelatorio | painel_admin/utils.py:10-25 | no table exactly for a negative day count |
| Metricas.RelatorioForma | painel_admin/utils.py:10-25 | one row per day, consecutive dates ending yesterday, saving = production · 0.75 |
| Common.Round2 | painel_admin/utils.py:84-87 | the result is a whole number of hundredths: `Centesimos(x)` of them, i.e. within half a hundredth of x, ties to even; so it moves x by at most half a hundredth |
| Common.Centesimos | painel_admin/utils.py:84-87 | the nearest integer to 100·x, an exact tie going to the even one |
| Common.Round2Idempotent | painel_admin/utils.py:84-87 | rounding twice is rounding once |
| Common.Percentual | painel_admin/alertas.py:45 | a share is in [0, 100], and 0 for an empty frame |
| Common.PercentualProporcao | painel_admin/utils.py:62 | the percentage of k out of n > 0 satisfies p · n = 100 · k |
| Common.PercentualExtremos | painel_admin/utils.py:62 | the share is 100 iff every row counts and 0 iff none does |
| Common.Media | painel_admin/utils.py:56-57 | the mean times n is the total |
| Common.SumDiff | painel_admin/alertas.py:37 | the sum of the differences is the difference of the sums |
| Common.CountBelowAtMost | painel_admin/alertas.py:43-44 | rows < 0 are at most rows ≤ 0 |
| Common.CountBelowMonotone | painel_admin/alertas.py:105 | a lower threshold counts no more rows |
| Common.CountAboveTodos | painel_admin/utils.py:61 | every row counted iff every row is above the threshold |
| Colunas.Strip | painel_admin/pages/3_Relatorios.py:220 | the result is a slice s[i..j] with only whitespace before i and from j on, and it neither starts nor ends with whitespace: the whitespace is cut from both ends and nothing else |
| Colunas.StripSemBordas | painel_admin/pages/3_Relatorios.py:220 | a name without edge whitespace is left as is |
| Colunas.Minusculas | painel_admin/pages/3_Relatorios.py:220 | same length, each character lower-cased |
| Colunas.Normalizar | painel_admin/pages/4_Exportacao.py:53-55 | the mapped name when the cleaned key is in the map, the original name verbatim otherwise |
| Colunas.NormalizarIdempotente | painel_admin/pages/4_Exportacao.py:41-55 | normalising twice is normalising once when every target maps to itself |
| Colunas.ComEspacoInterno | painel_admin/pages/4_Exportacao.py:41-49 | a target with an inner space and clean edges cannot be a key, so it is kept |
| Colunas.DataFixa | painel_admin/pages/4_Exportacao.py:46 | "Data" maps back to "Data" |
| Colunas.AlvosFixosRelatorios | painel_admin/pages/3_Relatorios.py:212-217 | every target of the report map is fixed by normalisation |
| Colunas.AlvosFixosExportacao | painel_admin/pages/4_Exportacao.py:41-49 | every target of the export map is fixed by normalisation |
| Colunas.RelatoriosNaoInjetivo | painel_admin/pages/3_Relatorios.py:212-217 | 'producao_kwh' and 'gerado' both become 'Gerado (kWh)' |
| Colunas.Renomear | painel_admin/pages/3_Relatorios.py:218-222 | same number and order of columns, values kept, each name normalised |
| Colunas.RenomearIdempotente | painel_admin/pages/4_Exportacao.py:52-57 | renaming twice is renaming once, for either map |
| Colunas.Quadro.RenomearColunas | painel_admin/pages/3_Relatorios.py:218-222 | the frame's columns become the renamed columns, in place |
| Colunas.PadronizarColunasExportacao | painel_admin/pages/4_Exportacao.py:34-58 | the same object is returned; null or empty is unchanged, otherwise renamed with the export map |
| Colunas.Quadro.AdicionarEficiencia | painel_admin/pages/3_Relatorios.py:224-227 | succeeds iff the efficiency step is defined, and then the columns are its result; on failure nothing changes |
| Colunas.EficienciaLimites | painel_admin/pages/3_Relatorios.py:226-227 | for non-negative generation every efficiency is in [0, 100], the maximum row gets 100, and a non-positive maximum gives 0 |
| Colunas.ComEficienciaForma | painel_admin/pages/3_Relatorios.py:224-227 | added only when absent and Gerado present; appends at most that column with one cell per row; fails iff Gerado must be read and is not numeric; a frame with no rows gets an empty efficiency column, as pandas' NaN maximum takes the `else 0` branch |
| Colunas.Quadro.AdicionarEconomia | painel_admin/pages/3_Relatorios.py:229-230 | the columns become the saving step's result |
| Colunas.ComEconomiaForma | painel_admin/pages/3_Relatorios.py:229-230 | an existing saving column is untouched; otherwise one zero column is appended |
| Colunas.Datas | painel_admin/pages/3_Relatorios.py:234 | every cell converted or a cell that fails |
| Colunas.Quadro.AdicionarDiaSemana | painel_admin/pages/3_Relatorios.py:232-236 | the columns become the weekday step's result |
| Colunas.ComDiaSemanaForma | painel_admin/pages/3_Relatorios.py:232-236 | only Data may change values; at most Dia_Semana is appended; an existing Dia_Semana leaves the frame unchanged |
| Colunas.PadronizarRelatorio | painel_admin/pages/3_Relatorios.py:211-236 | null or empty frames untouched; otherwise the columns become the standardised frame, or only the renamed ones when efficiency fails |
| Colunas.PadronizadoForma | painel_admin/pages/3_Relatorios.py:211-236 | names and order kept, at most three columns appended, non-Data values kept, a saving column always present, efficiency present iff it was or Gerado was, still rectangular |
| Periodos.DiasDoIntervalo | painel_admin/pages/3_Relatorios.py:69-77 | presets give 7, 30 or 90; a custom period gives one day fewer than the alerts page counts |
| Periodos.PersonalizadoUmDiaAMenos | painel_admin/pages/3_Relatorios.py:74-75 | a custom report has one row fewer than the inclusive count, fails iff fim < inicio, and starts at hoje − (fim − inicio) |
| Periodos.FonteDoRelatorio | painel_admin/pages/3_Relatorios.py:198-208 | monthly (12 periods) iff "Comparativo Mensal", otherwise daily for the stored count, 30 by default |
| Periodos.FonteDoIntervalo | painel_admin/pages/3_Relatorios.py:96-101 | the stored day count is the one the daily report loads; presets are positive |
| Periodos.DiasExportacao | painel_admin/pages/4_Exportacao.py:83-89 | 7, 30, 90 or 3650; an unknown label gives 30 |
| Periodos.ExportacaoConcordaComRelatorio | painel_admin/pages/4_Exportacao.py:83-89 | the export page agrees with the report page on the three presets; "Todo o Histórico" is 3650 |
| Usuarios.ResultadoCadastro | painel_admin/pages/2_Cadastrar_Usuario.py:63-77 | warning iff a field is empty; success iff all filled and the login is new |
| Usuarios.Inserir | painel_admin/pages/2_Cadastrar_Usuario.py:78-83 | exactly one new key, holding the new user; every other user unchanged |
| Usuarios.Cadastrar | painel_admin/pages/2_Cadastrar_Usuario.py:63-88 | outcome as above; failure changes nothing and writes nothing; success stores {name, email, hash(senha)}, creates `usernames` if missing, and writes once (the same step as Home.py:149-172 and 2_Configuracoes.py:21-47) |
| Usuarios.SegundoCadastroRecusado | painel_admin/pages/2_Cadastrar_Usuario.py:75-76 | after a registration the same login is refused, whatever the other fields |
| Usuarios.CadastrarENotificar | painel_admin/pages/2_Cadastrar_Usuario.py:63-95 | success also appends exactly one low-urgency "user created" notification; failure appends nothing |
| Usuarios.Ler | painel_admin/pages/2_Cadastrar_Usuario.py:20-32 | a count iff the file exists and reads; a missing file is also a failed read; the count is the size of `usernames`, or 0 without it |
| Usuarios.RegrasSistema | painel_admin/pages/2_Cadastrar_Usuario.py:19-54 | high iff the read failed; a missing file gives low then high; medium iff 0 users; low for > 10; nothing for 1–10 |
| Usuarios.VerificarAlertasSistema | painel_admin/pages/2_Cadastrar_Usuario.py:19-54 | appends exactly those requests, in order |
| Usuarios.CadastroEContagem | painel_admin/pages/2_Cadastrar_Usuario.py:32-47 | after a registration the count grows by one: the first user silences "no user", the eleventh brings "many users" |
| Sessao.EstadoSessao.Inicializar | painel_admin/Home.py:15-16 | logged_in is set to false only when absent |
| Sessao.EstadoSessao.RealizarLogout | painel_admin/Home.py:18-21 | the key-by-key loop leaves the session empty |
| Sessao.EstadoSessao.Entrar | painel_admin/Home.py:130-140 | a true status sets logged_in; otherwise the session is unchanged; the user is logged in after iff before or the status is true |
| Sessao.RespostaLogin | painel_admin/Home.py:133-140 | enter iff true, error iff false, prompt iff no status |
| Ajustes.AcessoAposLoginELogout | painel_admin/pages/Ajustes.py:17-19 | setting logged_in opens the page and by itself leaves admin visibility as it was; after the authenticator's login, which also writes `username`, the admin section shows iff the login is `admin`; after logout neither holds |
| Ajustes.AdminSoParaAdmin | painel_admin/pages/Ajustes.py:241 | the admin section shows iff the user name is exactly "admin" |
| Ajustes.ResultadoPerfil | painel_admin/pages/Ajustes.py:62-70 | saved iff both name and e-mail are non-empty |
| Ajustes.ComPerfil | painel_admin/pages/Ajustes.py:63-65 | same logins; that user's name and e-mail replaced, password kept; other users unchanged |
| Ajustes.AtualizarPerfil | painel_admin/pages/Ajustes.py:62-70 | with both fields the registry becomes the edited one and is written once; otherwise nothing changes |
| Ajustes.VerificarSenha | painel_admin/pages/Ajustes.py:78-89 | the chain in order: any empty field, mismatch, fewer than 4 characters, success; each outcome stated as an iff |
| Ajustes.ComSenha | painel_admin/pages/Ajustes.py:86-87 | same logins; only that user's password replaced |
| Ajustes.AlterarSenha | painel_admin/pages/Ajustes.py:78-89 | on success only the current user's password becomes hash(new) and the file is written once; otherwise nothing changes |
| Ajustes.SenhaAtualIgnorada | painel_admin/pages/Ajustes.py:73-89 | any non-empty current password, even a wrong one, lets a valid new password through |
| Ajustes.EdicoesMantemCadastro | painel_admin/pages/Ajustes.py:49-52 | after either edit the user is still active and a new registration under that login is still refused |
| Ajustes.PerfilESenhaComutam | painel_admin/pages/Ajustes.py:62-89 | profile and password edits commute |
| Ajustes.DiasExportacaoAjustes | painel_admin/pages/Ajustes.py:124-130 | 7 iff "Últimos 7 dias", 30 iff "Últimos 30 dias", 90 for anything else |
| Ajustes.ExportacaoAjustesForma | painel_admin/pages/Ajustes.py:124-130 | the prepared data has that many consecutive days, ending yesterday |
| Ajustes.AjustesEExportacao | painel_admin/pages/Ajustes.py:124-130 | agrees with the export page on 7 and 30 days; "Todos os dados" gives 90 here but 30 on the export page |

## Left out

- Rendering. Charts, cards, metrics, tabs, the sidebar and CSS are not modelled. `exibir_alertas` is modelled only through its filter.
- The YAML file. `usuarios.yaml` is the fields of `ArquivoUsuarios`:
  - whether it exists;
  - its `usernames` map, `None` when the document lacks one;
  - a counter of writes.

  A file that is present but unreadable is the `Ilegivel` reading. A `usernames` value that is not a map is not modelled.
- Random draws. `np.random` values are function parameters. Only the rows' shape and the derived-field formulas are modelled.
- The clock. `datetime.now()` is a parameter: seconds plus the `%H:%M` label, or a day number for dates.
- One clock reading per analysis. One reading serves a whole analysis and all its alerts. `adicionar_alerta` reads the clock again for every alert (painel_admin/alertas.py:24-25), so alerts of one analysis could carry different minutes.
- Usuarios.Cadastrar: the password hasher is a deterministic function parameter. The real hasher salts, so equal passwords need not give equal stored hashes. The same applies to Ajustes.AlterarSenha.
- Float arithmetic and NaN. Values are exact reals and `round(x, 2)` is modelled as nearest-hundredth rounding. Minimum, maximum and mean of an empty column are `None` instead of NaN. The division by zero of `calcular_metricas_avancadas` on an empty frame is `None`.
- Message formatting. Messages are a template plus arguments; `:.2f` and `:.1f` formatting is not modelled.
- Colunas.Minusculas: only ASCII letters are lower-cased; other Unicode case mappings are not modelled. Colunas.Strip uses the whitespace set of Latin-1.
- Duplicate column names. The steps look up the first column with a given name; pandas would select several.
- Colunas.PadronizarRelatorio: weekday names come from a parameter `nomeDoDia`. Date parsing is a parameter `paraData` that either converts a cell or fails, for the whole column.
- The efficiency step fails (`None`) when Gerado is not numeric, where pandas would raise and the page would stop; the exception itself is not modelled.
- Temperature and irradiance columns of `gerar_dados_relatorio` are not modelled, nor the `strftime` of its dates.
- Metricas.GerarDadosPorPeriodo: the month ends of `pd.date_range(freq="M")` are a parameter.
- `st.rerun` and `auto_refresh_alertas` are not modelled.
- `st.cache_data`: the settings page caches the registry at its first load (Ajustes.py:25-30) and writes that snapshot back when it saves (Ajustes.py:64-66, 86-88). A user registered on another page since then, or an earlier edit, is overwritten by the page. The model reads the live file (Ajustes.AtualizarPerfil, Ajustes.AlterarSenha), so this loss is not modelled.
- `analisar_excedente` adds the derived `'Excedente (kWh)'` column to the caller's frame in place (alertas.py:37). The model computes the column as a value; the caller's frame is not changed.
- The "last check" time is set only in the constructor.
- Sessao.EstadoSessao.Entrar: the authenticator status is `Option<bool>`; other truthy values are not modelled.
- The authenticator itself, the profile section's display and the export formats are not modelled.
- Exporters are not modelled: CSV, Excel, JSON, `gerar_pdf_relatorio`, and the export of alerts.
- Not part of this model: email, the simulator page, `reset_admin.py` and the REST backend.
- Behaviours of the code worth noting, which the model keeps:
  - the deficit share divides the deficit rows by the frame's row count (`len(dados)`);
  - a derived surplus is not rounded inside the classifier;
  - a frame without surplus data yields `{}`, with no exception;
  - thresholds are not validated;
  - a re-analysis at another moment keeps kinds, messages and values, but the clock's label and the timestamps change (Alertas.ReanaliseEstavel). Identical lists are proved only for the same moment (Alertas.AnalisarDuasVezes).
