/** The in-session notification list (`NotificacaoRealTime`): an
    append-only list kept in the Streamlit session state, with ids of the
    form "length + 1", a mark-as-read operation, an unread filter, pruning
    by age and three fixed-threshold rules over a day's surplus. */
module Notificacoes {
  import opened Common

  /** The `urgencia` text: the three names the dashboard uses, or any
      other text a caller passes. `Outra` is meant for texts other than
      "alta", "media" and "baixa"; every call site in the model uses the
      first three constructors. */
  datatype Urgencia = Alta | Media | Baixa | Outra(nome: string)

  /** The fixed notifications the dashboard raises: each fixes the `tipo`,
      the title and the message template. */
  datatype Aviso =
    | DeficitCritico | HorasDeficit | SemExcedente
    | ArquivoNaoEncontrado | NenhumUsuario | MuitosUsuarios | ErroLeitura | UsuarioCriado

  /** The `tipo`, `titulo` and `mensagem` of a notification: the kind of
      notice and the values substituted into its message. */
  datatype Conteudo = Conteudo(aviso: Aviso, args: seq<Arg>)

  datatype Notificacao = Notificacao(id: int, conteudo: Conteudo, urgencia: Urgencia, timestamp: int, lida: bool)

  /** One call of `adicionar_notificacao` still to be made. */
  datatype Pedido = Pedido(conteudo: Conteudo, urgencia: Urgencia)

  /** The three levels of `exibir_toast`. */
  datatype Nivel = Erro | Advertencia | Informacao

  function TipoAviso(a: Aviso): string
  {
    match a
    case DeficitCritico => "deficit_critico"
    case HorasDeficit => "horas_deficit"
    case SemExcedente => "sem_excedente"
    case UsuarioCriado => "usuario_criado"
    case _ => "sistema"
  }

  function Titulo(a: Aviso): string
  {
    match a
    case DeficitCritico => "Déficit Energético Crítico"
    case HorasDeficit => "Muitas Horas em Déficit"
    case SemExcedente => "Sistema Sem Excedente"
    case ArquivoNaoEncontrado => "Arquivo de Usuários Não Encontrado"
    case NenhumUsuario => "Nenhum Usuário Cadastrado"
    case MuitosUsuarios => "Muitos Usuários"
    case ErroLeitura => "Erro ao Ler Arquivo"
    case UsuarioCriado => "Usuário Cadastrado"
  }

  function Modelo(a: Aviso): string
  {
    match a
    case DeficitCritico => "Sistema com déficit de {:.2f} kWh"
    case HorasDeficit => "{} horas do dia sem excedente"
    case SemExcedente => "Sistema operando sem excedente de energia"
    case ArquivoNaoEncontrado => "O arquivo de usuários não foi encontrado. Será criado automaticamente."
    case NenhumUsuario => "Sistema sem usuários cadastrados. Recomenda-se criar pelo menos um usuário."
    case MuitosUsuarios => "{} usuários cadastrados. Considere revisar permissões."
    case ErroLeitura => "Erro ao verificar arquivo de usuários: {}"
    case UsuarioCriado => "Usuário \"{}\" foi cadastrado com sucesso no sistema."
  }

  // ---------------------------------------------------------------------
  // The list operations as functions of the list

  /** The list after `adicionar_notificacao`: one unread entry appended,
      numbered one past the current length. */
  function Adicionar(s: seq<Notificacao>, c: Conteudo, u: Urgencia, agora: int): (r: seq<Notificacao>)
    ensures |r| == |s| + 1 && r[..|s|] == s
    ensures r[|s|] == Notificacao(|s| + 1, c, u, agora, false)
  {
    s + [Notificacao(|s| + 1, c, u, agora, false)]
  }

  /** Several `adicionar_notificacao` calls in a row, at one clock reading. */
  function AdicionarVarios(s: seq<Notificacao>, ps: seq<Pedido>, agora: int): seq<Notificacao>
    decreases |ps|
  {
    if ps == [] then s
    else AdicionarVarios(Adicionar(s, ps[0].conteudo, ps[0].urgencia, agora), ps[1..], agora)
  }

  /** A batch of requests appends one entry per request, in request order,
      and leaves the earlier entries as they were. */
  lemma {:induction false} AdicionarVariosAcrescenta(s: seq<Notificacao>, ps: seq<Pedido>, agora: int)
    ensures var r := AdicionarVarios(s, ps, agora);
      && |r| == |s| + |ps|
      && r[..|s|] == s
      && forall k :: 0 <= k < |ps| ==>
           r[|s| + k] == Notificacao(|s| + k + 1, ps[k].conteudo, ps[k].urgencia, agora, false)
    decreases |ps|
  {
    if ps != [] {
      var s1 := Adicionar(s, ps[0].conteudo, ps[0].urgencia, agora);
      AdicionarVariosAcrescenta(s1, ps[1..], agora);
      var r := AdicionarVarios(s, ps, agora);
      assert r == AdicionarVarios(s1, ps[1..], agora);
      assert r[..|s|] == r[..|s1|][..|s|];
      forall k | 0 <= k < |ps|
        ensures r[|s| + k] == Notificacao(|s| + k + 1, ps[k].conteudo, ps[k].urgencia, agora, false)
      {
        if k > 0 {
          assert r[|s1| + (k - 1)] == Notificacao(|s1| + (k - 1) + 1, ps[1..][k - 1].conteudo, ps[1..][k - 1].urgencia, agora, false);
        } else {
          assert r[|s|] == r[..|s1|][|s|];
        }
      }
    }
  }

  /** `marcar_como_lida`: the first entry with the id is flagged read. */
  function MarcarPrimeira(s: seq<Notificacao>, id: int): (r: seq<Notificacao>)
    ensures |r| == |s|
    decreases |s|
  {
    if s == [] then []
    else if s[0].id == id then [s[0].(lida := true)] + s[1..]
    else [s[0]] + MarcarPrimeira(s[1..], id)
  }

  /** When `i` is the first position holding the id, exactly that entry
      changes, and only in its read flag. */
  lemma {:induction false} MarcarPrimeiraEm(s: seq<Notificacao>, id: int, i: nat)
    requires i < |s| && s[i].id == id
    requires forall k :: 0 <= k < i ==> s[k].id != id
    ensures MarcarPrimeira(s, id) == s[i := s[i].(lida := true)]
    decreases i
  {
    if i > 0 {
      MarcarPrimeiraEm(s[1..], id, i - 1);
    }
  }

  /** Without an entry holding the id, nothing changes. */
  lemma {:induction false} MarcarPrimeiraAusente(s: seq<Notificacao>, id: int)
    requires forall k :: 0 <= k < |s| ==> s[k].id != id
    ensures MarcarPrimeira(s, id) == s
    decreases |s|
  {
    if s != [] {
      MarcarPrimeiraAusente(s[1..], id);
    }
  }

  /** `obter_notificacoes_nao_lidas`: the unread entries, in list order. */
  function NaoLidas(s: seq<Notificacao>): (r: seq<Notificacao>)
    ensures |r| <= |s|
    ensures forall n :: n in r <==> n in s && !n.lida
  {
    if s == [] then [] else NaoLidas(s[..|s| - 1]) + (if s[|s| - 1].lida then [] else [s[|s| - 1]])
  }

  /** The unread filter keeps the list order: unread entries are taken as a
      block when the list is split. */
  lemma {:induction false} NaoLidasConcat(a: seq<Notificacao>, b: seq<Notificacao>)
    ensures NaoLidas(a + b) == NaoLidas(a) + NaoLidas(b)
    decreases |b|
  {
    if b == [] {
      assert a + b == a;
    } else {
      var n := |b| - 1;
      assert (a + b)[..|a + b| - 1] == a + b[..n];
      NaoLidasConcat(a, b[..n]);
    }
  }

  /** A fresh notification is unread, so it joins the end of the unread
      list. */
  lemma NaoLidasAposAdicionar(s: seq<Notificacao>, c: Conteudo, u: Urgencia, agora: int)
    ensures NaoLidas(Adicionar(s, c, u, agora)) == NaoLidas(s) + [Notificacao(|s| + 1, c, u, agora, false)]
  {
    NaoLidasConcat(s, [Notificacao(|s| + 1, c, u, agora, false)]);
  }

  /** `limpar_notificacoes_antigas`: entries strictly newer than the limit,
      in list order. */
  function Recentes(s: seq<Notificacao>, limite: int): (r: seq<Notificacao>)
    ensures |r| <= |s|
    ensures forall n :: n in r <==> n in s && n.timestamp > limite
  {
    if s == [] then [] else Recentes(s[..|s| - 1], limite) + (if s[|s| - 1].timestamp > limite then [s[|s| - 1]] else [])
  }

  /** Pruning keeps the list's order and every surviving entry, repeated
      ones included: it distributes over concatenation. */
  lemma {:induction false} RecentesConcat(a: seq<Notificacao>, b: seq<Notificacao>, limite: int)
    ensures Recentes(a + b, limite) == Recentes(a, limite) + Recentes(b, limite)
    decreases |b|
  {
    if b == [] {
      assert a + b == a;
    } else {
      var n := |b| - 1;
      var ultimo := if b[n].timestamp > limite then [b[n]] else [];
      assert (a + b)[..|a + b| - 1] == a + b[..n];
      assert (a + b)[|a + b| - 1] == b[n];
      calc {
        Recentes(a + b, limite);
        Recentes(a + b[..n], limite) + ultimo;
        { RecentesConcat(a, b[..n], limite); }
        Recentes(a, limite) + Recentes(b[..n], limite) + ultimo;
        Recentes(a, limite) + Recentes(b, limite);
      }
    }
  }

  /** The moment `horas` hours before `agora`, on a clock in seconds. */
  function Limite(agora: int, horas: int): int
  {
    agora - horas * 3600
  }

  /** Ids follow the list position: entry k (from 0) has id k + 1. */
  predicate IdsSequenciais(s: seq<Notificacao>)
  {
    forall k :: 0 <= k < |s| ==> s[k].id == k + 1
  }

  /** Without removals the k-th notification has id k: appending and
      marking read keep the numbering. */
  lemma IdsSequenciaisPreservados(s: seq<Notificacao>, c: Conteudo, u: Urgencia, agora: int, id: int)
    requires IdsSequenciais(s)
    ensures IdsSequenciais(Adicionar(s, c, u, agora))
    ensures IdsSequenciais(MarcarPrimeira(s, id))
  {
    if exists i :: 0 <= i < |s| && s[i].id == id {
      var i :| 0 <= i < |s| && s[i].id == id;
      assert i == id - 1;
      MarcarPrimeiraEm(s, id, i);
    } else {
      MarcarPrimeiraAusente(s, id);
    }
  }

  /** Ids can repeat once entries have been pruned: two notifications a
      day apart, a prune that drops the first, and the next notification
      gets the id of the one still in the list. */
  lemma IdsRepetemAposLimpeza(c: Conteudo, u: Urgencia)
    ensures var s := Adicionar(Adicionar([], c, u, 0), c, u, 100000);
      var p := Recentes(s, Limite(100000, 24));
      var r := Adicionar(p, c, u, 100000);
      |r| == 2 && r[0].id == r[1].id == 2
  {
    var s := Adicionar(Adicionar([], c, u, 0), c, u, 100000);
    assert s[..1] == [s[0]];
    assert Recentes(s[..1], Limite(100000, 24)) == [];
  }

  // ---------------------------------------------------------------------
  // Rules and display choices

  /** The notifications `verificar_alertas_excedente` asks for, from the
      day's total surplus and number of deficit hours. */
  function PedidosExcedente(total: real, horasDeficit: nat): seq<Pedido>
  {
    (if total < -5.0 then [Pedido(Conteudo(DeficitCritico, [Num(Abs(total))]), Alta)] else [])
    + (if horasDeficit > 12 then [Pedido(Conteudo(HorasDeficit, [Int(horasDeficit)]), Media)] else [])
    + (if total <= 0.0 then [Pedido(Conteudo(SemExcedente, []), Baixa)] else [])
  }

  /** The three rules are independent: each fires on its own condition,
      and a total below −5 kWh always brings the "no surplus" notice with
      the critical one. */
  lemma RegrasExcedente(total: real, horasDeficit: nat)
    ensures var p := PedidosExcedente(total, horasDeficit);
      && |p| <= 3
      && |p| == (if total < -5.0 then 1 else 0) + (if horasDeficit > 12 then 1 else 0) + (if total <= 0.0 then 1 else 0)
      && ((exists k :: 0 <= k < |p| && p[k].urgencia == Alta) <==> total < -5.0)
      && ((exists k :: 0 <= k < |p| && p[k].urgencia == Media) <==> horasDeficit > 12)
      && ((exists k :: 0 <= k < |p| && p[k].urgencia == Baixa) <==> total <= 0.0)
      && (total < -5.0 ==> p[0].urgencia == Alta && p[|p| - 1].urgencia == Baixa)
  {
    var p := PedidosExcedente(total, horasDeficit);
    if total < -5.0 { assert p[0].urgencia == Alta; }
    if horasDeficit > 12 { assert p[if total < -5.0 then 1 else 0].urgencia == Media; }
    if total <= 0.0 { assert p[|p| - 1].urgencia == Baixa; }
  }

  /** `exibir_toast`: "alta" is shown as an error, "media" as a warning,
      anything else as information. */
  function NivelToast(u: Urgencia): (n: Nivel)
    ensures n == Erro <==> u == Alta
    ensures n == Advertencia <==> u == Media
    ensures n == Informacao <==> u != Alta && u != Media
  {
    if u == Alta then Erro else if u == Media then Advertencia else Informacao
  }

  /** The sidebar panel lists the last five unread notifications. */
  function Painel(s: seq<Notificacao>): (r: seq<Notificacao>)
    ensures |r| == if |NaoLidas(s)| < 5 then |NaoLidas(s)| else 5
    ensures NaoLidas(s)[|NaoLidas(s)| - |r|..] == r
  {
    var u := NaoLidas(s);
    if |u| <= 5 then u else u[|u| - 5..]
  }

  // ---------------------------------------------------------------------
  // The session state and the notification object

  /** The two entries of `st.session_state` the notifier uses; either may be
      absent. */
  class SessaoNotificacoes {
    var notificacoes: Option<seq<Notificacao>>
    var ultimaVerificacao: Option<int>

    constructor ()
      ensures notificacoes == None && ultimaVerificacao == None
    {
      notificacoes := None;
      ultimaVerificacao := None;
    }
  }

  class NotificacaoRealTime {
    const sessao: SessaoNotificacoes

    ghost predicate Valid()
      reads this, sessao
    {
      sessao.notificacoes.Some?
    }

    function Lista(): seq<Notificacao>
      reads this, sessao
      requires Valid()
    {
      sessao.notificacoes.value
    }

    /** `__init__`: creates the list and the clock entry only when absent,
        so a new notifier never discards existing notifications. */
    constructor (s: SessaoNotificacoes, agora: int)
      modifies s
      ensures sessao == s && Valid()
      ensures old(s.notificacoes).Some? ==> s.notificacoes == old(s.notificacoes)
      ensures old(s.notificacoes).None? ==> s.notificacoes == Some([])
      ensures old(s.ultimaVerificacao).Some? ==> s.ultimaVerificacao == old(s.ultimaVerificacao)
      ensures old(s.ultimaVerificacao).None? ==> s.ultimaVerificacao == Some(agora)
    {
      sessao := s;
      if s.notificacoes.None? {
        s.notificacoes := Some([]);
      }
      if s.ultimaVerificacao.None? {
        s.ultimaVerificacao := Some(agora);
      }
    }

    /** `adicionar_notificacao`: appends exactly one unread entry. */
    method AdicionarNotificacao(c: Conteudo, u: Urgencia, agora: int)
      requires Valid()
      modifies sessao`notificacoes
      ensures Valid()
      ensures Lista() == Adicionar(old(Lista()), c, u, agora)
    {
      var lista := sessao.notificacoes.value;
      var notificacao := Notificacao(|lista| + 1, c, u, agora, false);
      sessao.notificacoes := Some(lista + [notificacao]);
    }

    /** `marcar_como_lida`: scans the list and flags the first entry with
        the id, then stops. */
    method MarcarComoLida(id: int)
      requires Valid()
      modifies sessao`notificacoes
      ensures Valid()
      ensures Lista() == MarcarPrimeira(old(Lista()), id)
    {
      var lista := sessao.notificacoes.value;
      var i := 0;
      while i < |lista|
        invariant 0 <= i <= |lista|
        invariant sessao.notificacoes == Some(lista)
        invariant forall k :: 0 <= k < i ==> lista[k].id != id
      {
        if lista[i].id == id {
          MarcarPrimeiraEm(lista, id, i);
          sessao.notificacoes := Some(lista[i := lista[i].(lida := true)]);
          return;
        }
        i := i + 1;
      }
      MarcarPrimeiraAusente(lista, id);
    }

    /** `obter_notificacoes_nao_lidas`. */
    function ObterNaoLidas(): (r: seq<Notificacao>)
      reads this, sessao
      requires Valid()
      ensures forall n :: n in r <==> n in Lista() && !n.lida
    {
      NaoLidas(Lista())
    }

    /** `limpar_notificacoes_antigas(horas)`: keeps the entries newer than
        `horas` hours before now (24 by default at the call site). */
    method LimparNotificacoesAntigas(horas: int, agora: int)
      requires Valid()
      modifies sessao`notificacoes
      ensures Valid()
      ensures Lista() == Recentes(old(Lista()), Limite(agora, horas))
    {
      var lista := sessao.notificacoes.value;
      sessao.notificacoes := Some(Recentes(lista, Limite(agora, horas)));
    }

    /** `verificar_alertas_excedente`: the three rules, each appending its
        notification when its condition holds. */
    method VerificarAlertasExcedente(exc: seq<real>, agora: int)
      requires Valid()
      modifies sessao`notificacoes
      ensures Valid()
      ensures Lista() == AdicionarVarios(old(Lista()), PedidosExcedente(Sum(exc), CountBelow(exc, 0.0)), agora)
    {
      var total := Sum(exc);
      var horasDeficit := CountBelow(exc, 0.0);
      ghost var s0 := Lista();
      ghost var feitos: seq<Pedido> := [];
      if total < -5.0 {
        AdicionarNotificacao(Conteudo(DeficitCritico, [Num(Abs(total))]), Alta, agora);
        feitos := feitos + [Pedido(Conteudo(DeficitCritico, [Num(Abs(total))]), Alta)];
      }
      assert Lista() == AdicionarVarios(s0, feitos, agora);
      if horasDeficit > 12 {
        AdicionarNotificacao(Conteudo(HorasDeficit, [Int(horasDeficit)]), Media, agora);
        AdicionarVariosFim(s0, feitos, Pedido(Conteudo(HorasDeficit, [Int(horasDeficit)]), Media), agora);
        feitos := feitos + [Pedido(Conteudo(HorasDeficit, [Int(horasDeficit)]), Media)];
      }
      assert Lista() == AdicionarVarios(s0, feitos, agora);
      if total <= 0.0 {
        AdicionarNotificacao(Conteudo(SemExcedente, []), Baixa, agora);
        AdicionarVariosFim(s0, feitos, Pedido(Conteudo(SemExcedente, []), Baixa), agora);
        feitos := feitos + [Pedido(Conteudo(SemExcedente, []), Baixa)];
      }
      assert feitos == PedidosExcedente(total, horasDeficit);
    }
  }

  /** One more request at the end of a batch is one more append. */
  lemma {:induction false} AdicionarVariosFim(s: seq<Notificacao>, ps: seq<Pedido>, p: Pedido, agora: int)
    ensures AdicionarVarios(s, ps + [p], agora) == Adicionar(AdicionarVarios(s, ps, agora), p.conteudo, p.urgencia, agora)
    decreases |ps|
  {
    if ps == [] {
      assert ps + [p] == [p];
    } else {
      assert (ps + [p])[1..] == ps[1..] + [p];
      AdicionarVariosFim(Adicionar(s, ps[0].conteudo, ps[0].urgencia, agora), ps[1..], p, agora);
    }
  }
}
