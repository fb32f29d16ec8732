/** The user registry kept in `usuarios.yaml` and the registration form
    that the home page, the configuration page and the user page share:
    all four fields are required, an existing login is refused, and a new
    user is stored with the hash of the password. The user page also
    raises notifications about the registry file. */
module Usuarios {
  import opened Common
  import N = Notificacoes

  /** One entry of `usernames`: name, e-mail and the password's hash. */
  datatype Usuario = Usuario(nome: string, email: string, senha: string)

  /** The registry file. `usernames` is `None` when the stored document
      has no such key (or the file is empty); a missing file is read as
      an empty document. `gravacoes` counts the `yaml.dump` calls. */
  class ArquivoUsuarios {
    var existe: bool
    var usernames: Option<map<string, Usuario>>
    var gravacoes: nat

    constructor (existe: bool, usernames: Option<map<string, Usuario>>)
      ensures this.existe == existe && this.usernames == usernames && gravacoes == 0
    {
      this.existe := existe;
      this.usernames := usernames;
      gravacoes := 0;
    }

    /** `dados.setdefault("usernames", {})` on what was read: the users
        the registration sees. */
    function Usuarios(): map<string, Usuario>
      reads this
    {
      if existe && usernames.Some? then usernames.value else map[]
    }
  }

  datatype SaidaCadastro = CamposVazios | UsuarioExiste | Cadastrado

  /** The outcome of the form: the warning for an empty field comes
      first, then the error for a taken login, otherwise success. */
  function ResultadoCadastro(usuarios: map<string, Usuario>, nome: string, email: string, usuario: string, senha: string): (s: SaidaCadastro)
    ensures s == Cadastrado <==> nome != [] && email != [] && usuario != [] && senha != [] && usuario !in usuarios
    ensures s == CamposVazios <==> nome == [] || email == [] || usuario == [] || senha == []
  {
    if nome == [] || email == [] || usuario == [] || senha == [] then CamposVazios
    else if usuario in usuarios then UsuarioExiste
    else Cadastrado
  }

  /** The registry after a successful registration. */
  function Inserir(usuarios: map<string, Usuario>, usuario: string, novo: Usuario): (r: map<string, Usuario>)
    requires usuario !in usuarios
    ensures r.Keys == usuarios.Keys + {usuario}
    ensures |r| == |usuarios| + 1
    ensures r[usuario] == novo
    ensures forall u :: u in usuarios ==> r[u] == usuarios[u]
  {
    usuarios[usuario := novo]
  }

  /** The registration button (`Home.py`, `2_Configuracoes.py`, and the
      first half of `2_Cadastrar_Usuario.py`): the file is read, the
      checks run in order, and only a successful insert changes the
      registry and writes the file. */
  method Cadastrar(arq: ArquivoUsuarios, nome: string, email: string, usuario: string, senha: string, hash: string -> string)
    returns (s: SaidaCadastro)
    modifies arq
    ensures s == ResultadoCadastro(old(arq.Usuarios()), nome, email, usuario, senha)
    ensures s != Cadastrado ==>
      arq.existe == old(arq.existe) && arq.usernames == old(arq.usernames) && arq.gravacoes == old(arq.gravacoes)
    ensures s == Cadastrado ==>
      && arq.existe
      && arq.usernames == Some(Inserir(old(arq.Usuarios()), usuario, Usuario(nome, email, hash(senha))))
      && arq.gravacoes == old(arq.gravacoes) + 1
  {
    if nome == [] || email == [] || usuario == [] || senha == [] {
      return CamposVazios;
    }
    var dados := arq.Usuarios();
    if usuario in dados {
      return UsuarioExiste;
    }
    dados := dados[usuario := Usuario(nome, email, hash(senha))];
    arq.existe := true;
    arq.usernames := Some(dados);
    arq.gravacoes := arq.gravacoes + 1;
    return Cadastrado;
  }

  /** Registering the same login again, with any data, is refused: the
      second attempt leaves the registry as the first one made it. */
  lemma SegundoCadastroRecusado(usuarios: map<string, Usuario>, nome: string, email: string, usuario: string, senha: string,
                                nome': string, email': string, senha': string, hash: string -> string)
    requires ResultadoCadastro(usuarios, nome, email, usuario, senha) == Cadastrado
    requires nome' != [] && email' != [] && senha' != []
    ensures ResultadoCadastro(Inserir(usuarios, usuario, Usuario(nome, email, hash(senha))), nome', email', usuario, senha') == UsuarioExiste
  {
  }

  /** The user page after a successful registration also appends one
      low-urgency "user created" notification naming the login. */
  method CadastrarENotificar(arq: ArquivoUsuarios, notificador: N.NotificacaoRealTime, nome: string, email: string, usuario: string,
                             senha: string, hash: string -> string, agora: int)
    returns (s: SaidaCadastro)
    requires notificador.Valid()
    modifies arq, notificador.sessao`notificacoes
    ensures notificador.Valid()
    ensures s == ResultadoCadastro(old(arq.Usuarios()), nome, email, usuario, senha)
    ensures s == Cadastrado ==>
      notificador.Lista() == N.Adicionar(old(notificador.Lista()), N.Conteudo(N.UsuarioCriado, [Str(usuario)]), N.Baixa, agora)
    ensures s != Cadastrado ==> notificador.Lista() == old(notificador.Lista())
    ensures s != Cadastrado ==>
      arq.existe == old(arq.existe) && arq.usernames == old(arq.usernames) && arq.gravacoes == old(arq.gravacoes)
    ensures s == Cadastrado ==>
      && arq.existe
      && arq.usernames == Some(Inserir(old(arq.Usuarios()), usuario, Usuario(nome, email, hash(senha))))
      && arq.gravacoes == old(arq.gravacoes) + 1
  {
    s := Cadastrar(arq, nome, email, usuario, senha, hash);
    if s == Cadastrado {
      notificador.AdicionarNotificacao(N.Conteudo(N.UsuarioCriado, [Str(usuario)]), N.Baixa, agora);
    }
  }

  // ---------------------------------------------------------------------
  // `verificar_alertas_sistema`

  /** What the user page finds when it opens the registry: no file, a
      file that cannot be read (with the exception's text), or the number
      of registered users. */
  datatype Leitura = SemArquivo(erro: string) | Ilegivel(erro: string) | Lido(numUsuarios: nat)

  /** The reading of a registry file: a missing file fails to open too,
      and a document without `usernames` counts no user. */
  function Ler(existe: bool, legivel: bool, usernames: Option<map<string, Usuario>>, erro: string): (l: Leitura)
    ensures l.Lido? <==> existe && legivel
    ensures l.SemArquivo? <==> !existe
    ensures l.Lido? && usernames.None? ==> l.numUsuarios == 0
    ensures l.Lido? && usernames.Some? ==> l.numUsuarios == |usernames.value|
  {
    if !existe then SemArquivo(erro)
    else if !legivel then Ilegivel(erro)
    else Lido(if usernames.Some? then |usernames.value| else 0)
  }

  /** After a successful registration the next check counts one user
      more: registering the first user silences the "no user" notice,
      and only the eleventh brings the "many users" one. */
  lemma CadastroEContagem(usuarios: map<string, Usuario>, usuario: string, novo: Usuario, erro: string)
    requires usuario !in usuarios
    ensures Ler(true, true, Some(Inserir(usuarios, usuario, novo)), erro) == Lido(|usuarios| + 1)
    ensures |usuarios| == 0 ==> PedidosSistema(Ler(true, true, Some(Inserir(usuarios, usuario, novo)), erro)) == []
    ensures |usuarios| == 10 ==>
      PedidosSistema(Ler(true, true, Some(Inserir(usuarios, usuario, novo)), erro)) == [N.Pedido(N.Conteudo(N.MuitosUsuarios, [Int(11)]), N.Baixa)]
  {
  }

  /** The notifications `verificar_alertas_sistema` asks for. */
  function PedidosSistema(l: Leitura): seq<N.Pedido>
  {
    match l
    case SemArquivo(e) =>
      [N.Pedido(N.Conteudo(N.ArquivoNaoEncontrado, []), N.Baixa), N.Pedido(N.Conteudo(N.ErroLeitura, [Str(e)]), N.Alta)]
    case Ilegivel(e) => [N.Pedido(N.Conteudo(N.ErroLeitura, [Str(e)]), N.Alta)]
    case Lido(n) =>
      if n == 0 then [N.Pedido(N.Conteudo(N.NenhumUsuario, []), N.Media)]
      else if n > 10 then [N.Pedido(N.Conteudo(N.MuitosUsuarios, [Int(n)]), N.Baixa)]
      else []
  }

  /** The rules by urgency: a high one exactly when the file could not be
      read (a missing file included, after its low one), a medium one
      exactly for an empty registry, and nothing for one to ten users. */
  lemma RegrasSistema(l: Leitura)
    ensures var p := PedidosSistema(l);
      && |p| <= 2
      && ((exists k :: 0 <= k < |p| && p[k].urgencia == N.Alta) <==> !l.Lido?)
      && ((exists k :: 0 <= k < |p| && p[k].urgencia == N.Media) <==> l == Lido(0))
      && (l.SemArquivo? ==> |p| == 2 && p[0].urgencia == N.Baixa && p[1].urgencia == N.Alta)
      && (l.Lido? && l.numUsuarios > 10 ==> |p| == 1 && p[0].urgencia == N.Baixa)
      && (l.Lido? && 1 <= l.numUsuarios <= 10 <==> p == [])
  {
    var p := PedidosSistema(l);
    match l {
      case SemArquivo(_) =>
        assert p[1].urgencia == N.Alta;
        assert p[0].urgencia != N.Media && p[1].urgencia != N.Media;
      case Ilegivel(_) =>
        assert p[0].urgencia == N.Alta;
      case Lido(n) =>
        if n == 0 {
          assert p[0].urgencia == N.Media;
        } else if n > 10 {
          assert p[0].urgencia == N.Baixa;
        }
    }
  }

  /** `verificar_alertas_sistema`: each rule appends its notification to
      the session list. */
  method VerificarAlertasSistema(notificador: N.NotificacaoRealTime, l: Leitura, agora: int)
    requires notificador.Valid()
    modifies notificador.sessao`notificacoes
    ensures notificador.Valid()
    ensures notificador.Lista() == N.AdicionarVarios(old(notificador.Lista()), PedidosSistema(l), agora)
  {
    ghost var s0 := notificador.Lista();
    match l {
      case SemArquivo(e) =>
        notificador.AdicionarNotificacao(N.Conteudo(N.ArquivoNaoEncontrado, []), N.Baixa, agora);
        notificador.AdicionarNotificacao(N.Conteudo(N.ErroLeitura, [Str(e)]), N.Alta, agora);
        N.AdicionarVariosFim(s0, [N.Pedido(N.Conteudo(N.ArquivoNaoEncontrado, []), N.Baixa)],
          N.Pedido(N.Conteudo(N.ErroLeitura, [Str(e)]), N.Alta), agora);
      case Ilegivel(e) =>
        notificador.AdicionarNotificacao(N.Conteudo(N.ErroLeitura, [Str(e)]), N.Alta, agora);
      case Lido(n) =>
        if n == 0 {
          notificador.AdicionarNotificacao(N.Conteudo(N.NenhumUsuario, []), N.Media, agora);
        } else if n > 10 {
          notificador.AdicionarNotificacao(N.Conteudo(N.MuitosUsuarios, [Int(n)]), N.Baixa, agora);
        }
    }
  }
}
