/** The settings page: the logged-in user edits their own name, e-mail
    and password in the registry, chooses an export period, and the
    administrator sees an extra section. */
module Ajustes {
  import opened Common
  import opened Usuarios
  import Sessao
  import Periodos
  import Metricas

  // ---------------------------------------------------------------------
  // Access

  /** The advanced section appears only when the session's user name is
      exactly `admin`. */
  predicate AdminVisivel(chaves: map<string, Sessao.Valor>)
  {
    "username" in chaves && chaves["username"] == Sessao.Texto("admin")
  }

  /** Setting the login flag opens the page and by itself leaves the
      advanced section as it was. The authenticator's login, which also
      writes `username`, shows that section exactly for `admin`. Logging
      out closes both. */
  lemma AcessoAposLoginELogout(chaves: map<string, Sessao.Valor>, usuario: string)
    ensures Sessao.LogadoEm(chaves["logged_in" := Sessao.Logico(true)])
    ensures AdminVisivel(chaves["logged_in" := Sessao.Logico(true)]) <==> AdminVisivel(chaves)
    ensures var apos := chaves["username" := Sessao.Texto(usuario)]["logged_in" := Sessao.Logico(true)];
      Sessao.LogadoEm(apos) && (AdminVisivel(apos) <==> usuario == "admin")
    ensures !Sessao.LogadoEm(map[]) && !AdminVisivel(map[])
  {
  }

  /** The comparison is exact: after a login as `nome` the advanced
      section is shown for `admin` and for no other spelling, whatever
      the session held before. */
  lemma AdminSoParaAdmin(chaves: map<string, Sessao.Valor>, nome: string)
    ensures AdminVisivel(chaves["username" := Sessao.Texto(nome)]) <==> nome == "admin"
    ensures !AdminVisivel(chaves["username" := Sessao.Texto("Admin")])
  {
  }

  /** The profile section is shown when there is a current user name, it
      is not empty, and the registry holds it. */
  predicate PerfilAtivo(usuarioAtual: Option<string>, usuarios: map<string, Usuario>)
  {
    usuarioAtual.Some? && usuarioAtual.value != [] && usuarioAtual.value in usuarios
  }

  // ---------------------------------------------------------------------
  // Personal information

  datatype SaidaPerfil = PerfilAtualizado | PerfilIncompleto

  /** Saving the profile needs both the name and the e-mail. */
  function ResultadoPerfil(novoNome: string, novoEmail: string): (s: SaidaPerfil)
    ensures s == PerfilAtualizado <==> novoNome != [] && novoEmail != []
  {
    if novoNome != [] && novoEmail != [] then PerfilAtualizado else PerfilIncompleto
  }

  /** The registry after the profile of `usuario` is saved. */
  function ComPerfil(usuarios: map<string, Usuario>, usuario: string, nome: string, email: string): (r: map<string, Usuario>)
    requires usuario in usuarios
    ensures r.Keys == usuarios.Keys
    ensures r[usuario].nome == nome && r[usuario].email == email
    ensures r[usuario].senha == usuarios[usuario].senha
    ensures forall u :: u in usuarios && u != usuario ==> r[u] == usuarios[u]
  {
    usuarios[usuario := usuarios[usuario].(nome := nome, email := email)]
  }

  /** The "save changes" button: with both fields filled the current
      user's name and e-mail are replaced and the file is written once;
      otherwise nothing changes. */
  method AtualizarPerfil(arq: ArquivoUsuarios, usuario: string, novoNome: string, novoEmail: string)
    returns (s: SaidaPerfil)
    requires PerfilAtivo(Some(usuario), arq.Usuarios())
    modifies arq
    ensures s == ResultadoPerfil(novoNome, novoEmail)
    ensures s == PerfilIncompleto ==>
      arq.existe == old(arq.existe) && arq.usernames == old(arq.usernames) && arq.gravacoes == old(arq.gravacoes)
    ensures s == PerfilAtualizado ==>
      && arq.existe
      && arq.usernames == Some(ComPerfil(old(arq.Usuarios()), usuario, novoNome, novoEmail))
      && arq.gravacoes == old(arq.gravacoes) + 1
  {
    if novoNome == [] || novoEmail == [] {
      return PerfilIncompleto;
    }
    var dados := arq.Usuarios();
    dados := dados[usuario := dados[usuario].(nome := novoNome, email := novoEmail)];
    arq.usernames := Some(dados);
    arq.gravacoes := arq.gravacoes + 1;
    return PerfilAtualizado;
  }

  // ---------------------------------------------------------------------
  // Password change

  datatype SaidaSenha = SenhaVazia | SenhasDiferentes | SenhaCurta | SenhaAlterada

  /** The checks of the "change password" button, in their order: an
      empty field, then a confirmation that differs, then a new password
      under four characters. The current password only has to be non
      empty: it is never compared with the stored hash. */
  function VerificarSenha(atual: string, nova: string, confirmacao: string): (s: SaidaSenha)
    ensures s == SenhaVazia <==> atual == [] || nova == [] || confirmacao == []
    ensures s == SenhasDiferentes <==> atual != [] && nova != [] && confirmacao != [] && nova != confirmacao
    ensures s == SenhaCurta <==> atual != [] && nova != [] && nova == confirmacao && |nova| < 4
    ensures s == SenhaAlterada <==> atual != [] && nova == confirmacao && |nova| >= 4
  {
    if atual == [] || nova == [] || confirmacao == [] then SenhaVazia
    else if nova != confirmacao then SenhasDiferentes
    else if |nova| < 4 then SenhaCurta
    else SenhaAlterada
  }

  /** The registry after the password of `usuario` is replaced. */
  function ComSenha(usuarios: map<string, Usuario>, usuario: string, senha: string): (r: map<string, Usuario>)
    requires usuario in usuarios
    ensures r.Keys == usuarios.Keys
    ensures r[usuario].senha == senha
    ensures r[usuario].nome == usuarios[usuario].nome && r[usuario].email == usuarios[usuario].email
    ensures forall u :: u in usuarios && u != usuario ==> r[u] == usuarios[u]
  {
    usuarios[usuario := usuarios[usuario].(senha := senha)]
  }

  /** The "change password" button: on success only the current user's
      password becomes the hash of the new one and the file is written
      once; on any failure nothing changes. */
  method AlterarSenha(arq: ArquivoUsuarios, usuario: string, atual: string, nova: string, confirmacao: string,
                      hash: string -> string)
    returns (s: SaidaSenha)
    requires PerfilAtivo(Some(usuario), arq.Usuarios())
    modifies arq
    ensures s == VerificarSenha(atual, nova, confirmacao)
    ensures s != SenhaAlterada ==>
      arq.existe == old(arq.existe) && arq.usernames == old(arq.usernames) && arq.gravacoes == old(arq.gravacoes)
    ensures s == SenhaAlterada ==>
      && arq.existe
      && arq.usernames == Some(ComSenha(old(arq.Usuarios()), usuario, hash(nova)))
      && arq.gravacoes == old(arq.gravacoes) + 1
  {
    if atual == [] || nova == [] || confirmacao == [] {
      return SenhaVazia;
    } else if nova != confirmacao {
      return SenhasDiferentes;
    } else if |nova| < 4 {
      return SenhaCurta;
    }
    var dados := arq.Usuarios();
    dados := dados[usuario := dados[usuario].(senha := hash(nova))];
    arq.usernames := Some(dados);
    arq.gravacoes := arq.gravacoes + 1;
    return SenhaAlterada;
  }

  /** Whoever holds the session can replace the password without knowing
      it: any non-empty text as the current password, including one whose
      hash is not the stored one, lets a valid new password through. */
  lemma SenhaAtualIgnorada(usuarios: map<string, Usuario>, usuario: string, atual: string, nova: string,
                           hash: string -> string)
    requires usuario in usuarios
    requires atual != [] && hash(atual) != usuarios[usuario].senha
    requires |nova| >= 4
    ensures VerificarSenha(atual, nova, nova) == SenhaAlterada
    ensures ComSenha(usuarios, usuario, hash(nova))[usuario].senha == hash(nova)
  {
  }

  /** Neither change touches the set of registered logins, so the user
      stays active and a new registration under the same login is still
      refused. */
  lemma EdicoesMantemCadastro(usuarios: map<string, Usuario>, usuario: string, nome: string, email: string, senha: string,
                              nome': string, email': string, senha': string)
    requires usuario != [] && usuario in usuarios
    requires nome' != [] && email' != [] && senha' != []
    ensures PerfilAtivo(Some(usuario), ComPerfil(usuarios, usuario, nome, email))
    ensures PerfilAtivo(Some(usuario), ComSenha(usuarios, usuario, senha))
    ensures ResultadoCadastro(ComPerfil(usuarios, usuario, nome, email), nome', email', usuario, senha') == UsuarioExiste
    ensures ResultadoCadastro(ComSenha(usuarios, usuario, senha), nome', email', usuario, senha') == UsuarioExiste
  {
  }

  /** The two edits touch different fields of the same entry, so their
      order does not matter. */
  lemma PerfilESenhaComutam(usuarios: map<string, Usuario>, usuario: string, nome: string, email: string, senha: string)
    requires usuario in usuarios
    ensures ComSenha(ComPerfil(usuarios, usuario, nome, email), usuario, senha)
         == ComPerfil(ComSenha(usuarios, usuario, senha), usuario, nome, email)
  {
    var a := ComSenha(ComPerfil(usuarios, usuario, nome, email), usuario, senha);
    var b := ComPerfil(ComSenha(usuarios, usuario, senha), usuario, nome, email);
    assert a[usuario] == Usuario(nome, email, senha) == b[usuario];
    assert forall u :: u in a ==> a[u] == b[u];
  }

  // ---------------------------------------------------------------------
  // Export period

  /** The "prepare export" button: seven or thirty days for their labels,
      ninety for anything else (the list's third label is "Todos os
      dados"). */
  function DiasExportacaoAjustes(rotulo: string): (d: nat)
    ensures d == 7 || d == 30 || d == 90
    ensures d == 7 <==> rotulo == "Últimos 7 dias"
    ensures d == 30 <==> rotulo == "Últimos 30 dias"
  {
    if rotulo == "Últimos 7 dias" then 7
    else if rotulo == "Últimos 30 dias" then 30
    else 90
  }

  /** The data prepared for export cover exactly that many consecutive
      days, ending yesterday. */
  lemma ExportacaoAjustesForma(rotulo: string, hoje: int, sorteio: nat -> (real, real, real))
    ensures var d := DiasExportacaoAjustes(rotulo);
      var r := Metricas.GerarDadosRelatorio(d, hoje, sorteio);
      && r.Some? && |r.value| == d
      && r.value[0].data == hoje - d && r.value[d - 1].data == hoje - 1
  {
    Metricas.RelatorioForma(DiasExportacaoAjustes(rotulo), hoje, sorteio);
  }

  /** The settings page and the export page agree on seven and thirty
      days, but the settings page's "Todos os dados" yields ninety days
      while the export page, whose map lacks that label, falls back to
      thirty. */
  lemma AjustesEExportacao()
    ensures DiasExportacaoAjustes(Periodos.Rotulo(Periodos.Ultimos7)) == Periodos.DiasExportacao(Periodos.Rotulo(Periodos.Ultimos7))
    ensures DiasExportacaoAjustes(Periodos.Rotulo(Periodos.Ultimos30)) == Periodos.DiasExportacao(Periodos.Rotulo(Periodos.Ultimos30))
    ensures DiasExportacaoAjustes("Todos os dados") == 90
    ensures Periodos.DiasExportacao("Todos os dados") == 30
  {
    Periodos.ExportacaoConcordaComRelatorio(Periodos.Ultimos7);
    Periodos.ExportacaoConcordaComRelatorio(Periodos.Ultimos30);
  }
}
