/** The home page's session handling: the login flag is created once,
    logging out deletes every session key, and the authenticator's status
    decides between entering the dashboard, an error and a prompt. */
module Sessao {
  import opened Common

  /** The values the home page reads or writes in `st.session_state`. */
  datatype Valor = Logico(b: bool) | Texto(s: string) | Outro

  /** The login check of the pages: they test `st.session_state.get("logged_in")`
      for truthiness. Every write of the flag stores a bool, so only a true
      flag passes, and that is what this predicate states. */
  predicate LogadoEm(chaves: map<string, Valor>)
  {
    "logged_in" in chaves && chaves["logged_in"] == Logico(true)
  }

  /** `st.session_state`: a dictionary updated in place. */
  class EstadoSessao {
    var chaves: map<string, Valor>

    constructor (chaves: map<string, Valor>)
      ensures this.chaves == chaves
    {
      this.chaves := chaves;
    }

    /** Whether this session is logged in. */
    predicate Logado()
      reads this
    {
      LogadoEm(chaves)
    }

    /** Lines 15-16: the flag is set to false only when absent. */
    method Inicializar()
      modifies this
      ensures "logged_in" in old(chaves) ==> chaves == old(chaves)
      ensures "logged_in" !in old(chaves) ==> chaves == old(chaves)["logged_in" := Logico(false)]
    {
      if "logged_in" !in chaves {
        chaves := chaves["logged_in" := Logico(false)];
      }
    }

    /** `realizar_logout`: every key is deleted, one at a time. */
    method RealizarLogout()
      modifies this
      ensures chaves == map[]
    {
      while chaves != map[]
        decreases |chaves|
      {
        var chave :| chave in chaves;
        chaves := chaves - {chave};
      }
    }

    /** Lines 130-140: a true status logs the user in; a false one shows
        an error; no status asks for the credentials. */
    method Entrar(status: Option<bool>) returns (r: Resposta)
      modifies this
      ensures r == RespostaLogin(status)
      ensures r == Entrou ==> chaves == old(chaves)["logged_in" := Logico(true)]
      ensures r != Entrou ==> chaves == old(chaves)
      ensures Logado() <==> old(Logado()) || status == Some(true)
    {
      r := RespostaLogin(status);
      if r == Entrou {
        chaves := chaves["logged_in" := Logico(true)];
      }
    }
  }

  datatype Resposta = Entrou | CredenciaisIncorretas | PedirCredenciais

  /** The three branches of the login outcome. */
  function RespostaLogin(status: Option<bool>): (r: Resposta)
    ensures r == Entrou <==> status == Some(true)
    ensures r == CredenciaisIncorretas <==> status == Some(false)
    ensures r == PedirCredenciais <==> status.None?
  {
    match status
    case Some(true) => Entrou
    case Some(false) => CredenciaisIncorretas
    case None => PedirCredenciais
  }
}
