/** The turn controller (Jogo): whose turn it is, the capture chain, mandatory captures
    and the end of the game. */
module Controle {
  import opened Wrappers
  import opened Pecas
  import opened Casas
  import opened Erros
  import opened Regras
  import opened Tabuleiros

  /** A player: a display name and the colour of its pieces (Jogador). */
  datatype Jogador = Jogador(nome: string, corPecas: Cor)

  /** The two players of a game; the first plays white and moves first. */
  const Jogador1: Jogador := Jogador("Jogador 1 (Brancas)", Branca)
  const Jogador2: Jogador := Jogador("Jogador 2 (Pretas)", Preta)

  /** The player who moves after j. */
  function Alternar(j: Jogador): (k: Jogador)
    ensures j == Jogador1 ==> k == Jogador2
    ensures j == Jogador2 ==> k == Jogador1
  {
    if j == Jogador1 then Jogador2 else Jogador1
  }

  /** The turn passes back and forth between the two players. */
  lemma AlternarVolta(j: Jogador)
    requires j == Jogador1 || j == Jogador2
    ensures Alternar(j) != j && Alternar(Alternar(j)) == j
  {
  }

  /** Tabuleiro.getPossiveisCapturas, which the controller calls but the board does not
      define: for the pieces g and a square, the landing squares of that square's
      captures. It is given to the game from outside, with nothing assumed of it. */
  type Oraculo = (Grade, int, int) -> seq<(int, int)>

  /** The mandatory captures of a turn: origin square to its landing squares. */
  type Mapa = map<(int, int), seq<(int, int)>>

  /** The square k holds a piece of colour cor that can capture. */
  predicate PodeCapturar(g: Grade, cor: Cor, capturas: Oraculo, k: (int, int))
  {
    k in g && g[k].cor == cor && |capturas(g, k.0, k.1)| > 0
  }

  /** The value encontrarCapturasObrigatorias computes for the player of colour cor. */
  ghost function CapturasObrigatorias(g: Grade, cor: Cor, capturas: Oraculo): (m: Mapa)
    ensures forall k :: k in m ==> k in g && g[k].cor == cor && |m[k]| > 0
  {
    map k | k in g && PodeCapturar(g, cor, capturas, k) :: capturas(g, k.0, k.1)
  }

  /** The mandatory captures are keyed by exactly the squares whose piece, of the
      player's colour, has a capture, and each lists that square's landing squares. */
  lemma ChavesDasCapturas(g: Grade, cor: Cor, capturas: Oraculo)
    ensures forall k :: k in CapturasObrigatorias(g, cor, capturas) <==> PodeCapturar(g, cor, capturas, k)
    ensures forall k :: k in CapturasObrigatorias(g, cor, capturas) ==> CapturasObrigatorias(g, cor, capturas)[k] == capturas(g, k.0, k.1)
  {
  }

  /** Square k comes before (linha, coluna) in the row-by-row scan of the board. */
  predicate Antes(k: (int, int), linha: int, coluna: int)
  {
    k.0 < linha || (k.0 == linha && k.1 < coluna)
  }

  /** The mandatory captures found by the scan once it reaches (linha, coluna). */
  ghost function CapturasAte(g: Grade, cor: Cor, capturas: Oraculo, linha: int, coluna: int): Mapa
  {
    map k | k in g && Antes(k, linha, coluna) && PodeCapturar(g, cor, capturas, k) :: capturas(g, k.0, k.1)
  }

  /** Scanning square (linha, coluna) adds it exactly when its piece can capture. */
  lemma CapturasAteProxima(g: Grade, cor: Cor, capturas: Oraculo, linha: int, coluna: int, antes: Mapa, depois: Mapa)
    requires antes == CapturasAte(g, cor, capturas, linha, coluna)
    requires PodeCapturar(g, cor, capturas, (linha, coluna)) ==> depois == antes[(linha, coluna) := capturas(g, linha, coluna)]
    requires !PodeCapturar(g, cor, capturas, (linha, coluna)) ==> depois == antes
    ensures depois == CapturasAte(g, cor, capturas, linha, coluna + 1)
  {
  }

  /** The end of a row is the start of the next. */
  lemma CapturasAteFimDaLinha(g: Grade, cor: Cor, capturas: Oraculo, linha: int)
    requires forall k :: k in g ==> NoTabuleiro(k.0, k.1)
    ensures CapturasAte(g, cor, capturas, linha, TAMANHO) == CapturasAte(g, cor, capturas, linha + 1, 0)
  {
  }

  /** Past the last row, the scan has found every mandatory capture. */
  lemma CapturasAteTudo(g: Grade, cor: Cor, capturas: Oraculo)
    requires forall k :: k in g ==> NoTabuleiro(k.0, k.1)
    ensures CapturasAte(g, cor, capturas, TAMANHO, 0) == CapturasObrigatorias(g, cor, capturas)
  {
  }

  /** A diagonal jump of more than one square, the only shape allowed while captures
      are mandatory. */
  predicate Salto(lo: int, co: int, ld: int, cd: int)
    ensures Salto(lo, co, ld, cd) <==> Abs(ld - lo) >= 2 && (ld - lo == cd - co || ld - lo == co - cd)
  {
    Abs(lo - ld) > 1 && Abs(co - cd) > 1 && Abs(lo - ld) == Abs(co - cd)
  }

  /** The controller's state as a value: the pieces, the active player, the capture
      chain (emSequenciaDeCaptura and the coordinates of pecaEmSequencia), the map of
      mandatory captures kept from the start of the turn, and whether the game ended. */
  datatype Estado = Estado(
    grade: Grade,
    atual: Jogador,
    emSequencia: bool,
    sequencia: Option<(int, int)>,
    mapa: Mapa,
    terminado: bool)

  /** The state at the start of a game. */
  ghost function EstadoInicial(): Estado
  {
    Estado(GradeInicial(), Jogador1, false, None, map[], false)
  }

  /** Jogo.iniciar, lines 64-65: the mandatory captures are recomputed at the top of
      each iteration, but only when no capture chain is under way. */
  ghost function Preparar(s: Estado, capturas: Oraculo): (t: Estado)
    ensures !s.emSequencia ==> t == s.(mapa := CapturasObrigatorias(s.grade, s.atual.corPecas, capturas))
    ensures s.emSequencia ==> t == s
  {
    if !s.emSequencia then s.(mapa := CapturasObrigatorias(s.grade, s.atual.corPecas, capturas))
    else s
  }

  /** The board after moverPeca takes the piece on (lo, co) to the empty (ld, cd). */
  function Mover(g: Grade, lo: int, co: int, ld: int, cd: int): (h: Grade)
    requires (lo, co) in g
    ensures (ld, cd) in h && h[(ld, cd)] == Promover(g[(lo, co)], ld)
    ensures (lo, co) != (ld, cd) ==> (lo, co) !in h
    ensures forall k :: k != (lo, co) && k != (ld, cd) ==> (k in h <==> k in g) && (k in g ==> h[k] == g[k])
  {
    (g - {(lo, co)})[(ld, cd) := Promover(g[(lo, co)], ld)]
  }

  /** The acceptance checks of a move (Jogo.iniciar, lines 98-143), in the order the
      Java code makes them: the first reason to refuse it, or None. */
  function Rejeicao(s: Estado, lo: int, co: int, ld: int, cd: int): (r: Option<Erro>)
    ensures r.None? ==> !s.terminado && NoTabuleiro(lo, co) && NoTabuleiro(ld, cd)
    ensures r.None? ==> (lo, co) in s.grade && s.grade[(lo, co)].cor == s.atual.corPecas
  {
    if s.terminado then Some(JogoEncerrado)
    else if !NoTabuleiro(lo, co) || !NoTabuleiro(ld, cd) then Some(ForaDoTabuleiro)
    else if (lo, co) !in s.grade then Some(OrigemVazia)
    else if s.grade[(lo, co)].cor != s.atual.corPecas then Some(CorErrada)
    else if s.emSequencia && s.sequencia != Some((lo, co)) then Some(SequenciaInterrompida)
    else if !s.emSequencia && s.mapa != map[] && (lo, co) !in s.mapa then Some(OrigemSemCaptura)
    else if !s.emSequencia && s.mapa != map[] && (ld, cd) !in s.mapa[(lo, co)] then Some(DestinoSemCaptura)
    else if s.mapa != map[] && !Salto(lo, co, ld, cd) then Some(CapturaObrigatoria)
    else None
  }

  /** The end of an accepted move, once moverPeca has made it (Jogo.iniciar, lines 159-191): the game
      ends if the opponent has no piece left; a jump (foiCaptura) whose landing square
      (ld, cd) can capture again continues the chain with the same player; otherwise the
      turn passes. */
  function Concluido(s: Estado, capturas: Oraculo, ld: int, cd: int, foiCaptura: bool): (t: Estado)
    ensures t.grade == s.grade && t.mapa == s.mapa
    ensures t.terminado == (s.terminado || SemPecas(s.grade, Oponente(s.atual.corPecas)))
    ensures t.emSequencia <==> !SemPecas(s.grade, Oponente(s.atual.corPecas)) && foiCaptura && |capturas(s.grade, ld, cd)| > 0
    ensures t.emSequencia ==> t.sequencia == Some((ld, cd)) && t.atual == s.atual
    ensures !t.emSequencia ==> t.sequencia == None
    ensures t.atual != s.atual <==> !SemPecas(s.grade, Oponente(s.atual.corPecas)) && !t.emSequencia
  {
    if SemPecas(s.grade, Oponente(s.atual.corPecas)) then
      s.(emSequencia := false, sequencia := None, terminado := true)
    else if foiCaptura && |capturas(s.grade, ld, cd)| > 0 then
      s.(emSequencia := true, sequencia := Some((ld, cd)))
    else
      s.(emSequencia := false, sequencia := None, atual := Alternar(s.atual))
  }

  /** What an accepted move does (Jogo.iniciar, lines 154-191): the piece is moved, and a move of more
      than one row counts as a capture. */
  function Efeito(s: Estado, capturas: Oraculo, lo: int, co: int, ld: int, cd: int): (t: Estado)
    requires (lo, co) in s.grade
    ensures t.grade == Mover(s.grade, lo, co, ld, cd) && t.mapa == s.mapa
    ensures t.emSequencia ==> Abs(lo - ld) > 1 && t.sequencia == Some((ld, cd))
  {
    Concluido(s.(grade := Mover(s.grade, lo, co, ld, cd)), capturas, ld, cd, Abs(lo - ld) > 1)
  }

  /** One attempted move (Jogo.iniciar, lines 98-191): the new state, or the reason
      the move is refused; an occupied destination is refused by moverPeca, after the
      controller's own checks. */
  function Lance(s: Estado, capturas: Oraculo, lo: int, co: int, ld: int, cd: int): (r: Result<Estado, Erro>)
    ensures r.Success? <==> Rejeicao(s, lo, co, ld, cd).None? && (ld, cd) !in s.grade
    ensures r.Failure? ==> r.error == if Rejeicao(s, lo, co, ld, cd).Some? then Rejeicao(s, lo, co, ld, cd).value else DestinoOcupado
  {
    match Rejeicao(s, lo, co, ld, cd)
    case Some(e) => Failure(e)
    case None =>
      if (ld, cd) in s.grade then Failure(DestinoOcupado)
      else Success(Efeito(s, capturas, lo, co, ld, cd))
  }

  /** A move as the player types it: origin row and column, destination row and column. */
  datatype Jogada = Jogada(lo: int, co: int, ld: int, cd: int)

  /** One pass of the game loop: the turn is prepared, then the move read is tried; a
      refused move is reported and leaves the prepared state. The map of mandatory
      captures is always the one of the prepared turn, and once the game is over no
      piece moves and the turn no longer passes. */
  ghost function Rodada(s: Estado, capturas: Oraculo, j: Jogada): (t: Estado)
    ensures t.mapa == Preparar(s, capturas).mapa
    ensures s.terminado ==> t.terminado && t.grade == s.grade && t.atual == s.atual
  {
    var p := Preparar(s, capturas);
    match Lance(p, capturas, j.lo, j.co, j.ld, j.cd)
    case Success(t) => t
    case Failure(_) => p
  }

  /** The state after a sequence of passes of the game loop; a finished game stays as
      it ended, whatever moves follow. */
  ghost function Partida(s: Estado, capturas: Oraculo, js: seq<Jogada>): (t: Estado)
    ensures |js| == 0 ==> t == s
    ensures s.terminado ==> t.terminado && t.grade == s.grade && t.atual == s.atual
    decreases |js|
  {
    if |js| == 0 then s else Partida(Rodada(s, capturas, js[0]), capturas, js[1..])
  }

  /** What the controller keeps consistent: pieces only on the board, one of the two
      players to move, a chain exactly when a chain square is recorded, and that square
      holding a piece of the player to move. */
  ghost predicate Consistente(s: Estado)
  {
    (forall k :: k in s.grade ==> NoTabuleiro(k.0, k.1)) &&
    (s.atual == Jogador1 || s.atual == Jogador2) &&
    (s.emSequencia <==> s.sequencia.Some?) &&
    (s.sequencia.Some? ==> s.sequencia.value in s.grade && s.grade[s.sequencia.value].cor == s.atual.corPecas)
  }

  /** A move is refused, in this order, when the game is over, when a square lies off the
      board, when the origin is empty and when its piece belongs to the other player. */
  lemma RecusasBasicas(s: Estado, capturas: Oraculo, lo: int, co: int, ld: int, cd: int)
    ensures s.terminado ==> Lance(s, capturas, lo, co, ld, cd) == Failure(JogoEncerrado)
    ensures !s.terminado && !(NoTabuleiro(lo, co) && NoTabuleiro(ld, cd)) ==>
      Lance(s, capturas, lo, co, ld, cd) == Failure(ForaDoTabuleiro)
    ensures !s.terminado && NoTabuleiro(lo, co) && NoTabuleiro(ld, cd) && (lo, co) !in s.grade ==>
      Lance(s, capturas, lo, co, ld, cd) == Failure(OrigemVazia)
    ensures (!s.terminado && NoTabuleiro(lo, co) && NoTabuleiro(ld, cd) && (lo, co) in s.grade
             && s.grade[(lo, co)].cor != s.atual.corPecas) ==>
      Lance(s, capturas, lo, co, ld, cd) == Failure(CorErrada)
  {
  }

  /** The first four checks passed: the move is from a square of the board holding a piece
      of the player to move, to a square of the board. */
  ghost predicate Elegivel(s: Estado, lo: int, co: int, ld: int, cd: int)
  {
    !s.terminado && NoTabuleiro(lo, co) && NoTabuleiro(ld, cd) &&
    (lo, co) in s.grade && s.grade[(lo, co)].cor == s.atual.corPecas
  }

  /** During a chain only the chain's piece may move: any other origin is refused, and an
      accepted move starts from the chain square. */
  lemma SequenciaComMesmaPeca(s: Estado, capturas: Oraculo, lo: int, co: int, ld: int, cd: int)
    requires s.emSequencia
    ensures Lance(s, capturas, lo, co, ld, cd).Success? ==> s.sequencia == Some((lo, co))
    ensures Elegivel(s, lo, co, ld, cd) && s.sequencia != Some((lo, co)) ==>
      Lance(s, capturas, lo, co, ld, cd) == Failure(SequenciaInterrompida)
  {
  }

  /** During a chain the map of mandatory captures is not recomputed, and the one kept
      from the start of the turn still forces a jump. */
  lemma SequenciaUsaMapaAntigo(s: Estado, capturas: Oraculo, lo: int, co: int, ld: int, cd: int)
    requires s.emSequencia
    ensures Preparar(s, capturas).mapa == s.mapa
    ensures (Elegivel(s, lo, co, ld, cd) && s.sequencia == Some((lo, co)) && s.mapa != map[]
             && !Salto(lo, co, ld, cd)) ==>
      Lance(s, capturas, lo, co, ld, cd) == Failure(CapturaObrigatoria)
  {
  }

  /** During a chain, a move of the chain's piece to a free square of the board is accepted
      exactly when no capture is mandatory or the move is a diagonal jump; the map kept
      from the start of the turn is not consulted for its keys or landing squares. */
  lemma SequenciaAceita(s: Estado, capturas: Oraculo, lo: int, co: int, ld: int, cd: int)
    requires s.emSequencia
    ensures Lance(s, capturas, lo, co, ld, cd).Success? <==>
      Elegivel(s, lo, co, ld, cd) && s.sequencia == Some((lo, co)) && (ld, cd) !in s.grade
      && (s.mapa == map[] || Salto(lo, co, ld, cd))
  {
  }

  /** Outside a chain, while the map of mandatory captures is not empty, a move is
      accepted exactly when its origin can capture, its destination is one of that
      origin's landing squares, it is a diagonal jump and the destination is free. */
  lemma CapturaImposta(s: Estado, capturas: Oraculo, lo: int, co: int, ld: int, cd: int)
    requires !s.emSequencia && s.mapa != map[]
    ensures Lance(s, capturas, lo, co, ld, cd).Success? <==>
      Elegivel(s, lo, co, ld, cd) && (lo, co) in s.mapa && (ld, cd) in s.mapa[(lo, co)]
      && Salto(lo, co, ld, cd) && (ld, cd) !in s.grade
  {
  }

  /** With no chain and no mandatory capture, any move of one's own piece to a free square
      of the board is accepted: the controller and moverPeca check no geometry. */
  lemma LanceLivre(s: Estado, capturas: Oraculo, lo: int, co: int, ld: int, cd: int)
    requires !s.emSequencia && s.mapa == map[]
    ensures Lance(s, capturas, lo, co, ld, cd).Success? <==> Elegivel(s, lo, co, ld, cd) && (ld, cd) !in s.grade
  {
  }

  /** An accepted move moves the piece and keeps the mandatory map; then the game ends
      when the opponent has no piece left, a jump whose landing square can capture again
      keeps the same player on a chain from there, and otherwise the turn passes. */
  lemma DesfechoDoLance(s: Estado, capturas: Oraculo, lo: int, co: int, ld: int, cd: int)
    requires Lance(s, capturas, lo, co, ld, cd).Success?
    ensures (lo, co) in s.grade && (ld, cd) !in s.grade
    ensures Lance(s, capturas, lo, co, ld, cd).value.grade == Mover(s.grade, lo, co, ld, cd)
    ensures Lance(s, capturas, lo, co, ld, cd).value.mapa == s.mapa
    ensures SemPecas(Mover(s.grade, lo, co, ld, cd), Oponente(s.atual.corPecas)) ==>
      var t := Lance(s, capturas, lo, co, ld, cd).value;
      t.terminado && !t.emSequencia && t.sequencia == None && t.atual == s.atual
    ensures (!SemPecas(Mover(s.grade, lo, co, ld, cd), Oponente(s.atual.corPecas))
             && Abs(lo - ld) > 1 && |capturas(Mover(s.grade, lo, co, ld, cd), ld, cd)| > 0) ==>
      var t := Lance(s, capturas, lo, co, ld, cd).value;
      !t.terminado && t.emSequencia && t.sequencia == Some((ld, cd)) && t.atual == s.atual
    ensures (!SemPecas(Mover(s.grade, lo, co, ld, cd), Oponente(s.atual.corPecas))
             && !(Abs(lo - ld) > 1 && |capturas(Mover(s.grade, lo, co, ld, cd), ld, cd)| > 0)) ==>
      var t := Lance(s, capturas, lo, co, ld, cd).value;
      !t.terminado && !t.emSequencia && t.sequencia == None && t.atual == Alternar(s.atual)
  {
  }

  /** Moving a piece to a free square neither adds nor removes a piece of any colour. */
  lemma MoverConservaPecas(g: Grade, lo: int, co: int, ld: int, cd: int, c: Cor)
    requires (lo, co) in g && (ld, cd) !in g
    ensures Contar(Mover(g, lo, co, ld, cd), c) == Contar(g, c)
  {
    var antes := Posicoes(g, c);
    var h := Mover(g, lo, co, ld, cd);
    if g[(lo, co)].cor == c {
      assert Posicoes(h, c) == antes - {(lo, co)} + {(ld, cd)} by {
        MoverPosicoes(g, lo, co, ld, cd, c);
      }
      Troca(antes, (lo, co), (ld, cd));
    } else {
      assert Posicoes(h, c) == antes by {
        MoverPosicoes(g, lo, co, ld, cd, c);
      }
    }
  }

  /** Where the pieces of colour c stand after a move: the moved piece's square changes,
      if it is of colour c, and no other. */
  lemma MoverPosicoes(g: Grade, lo: int, co: int, ld: int, cd: int, c: Cor)
    requires (lo, co) in g && (ld, cd) !in g
    ensures g[(lo, co)].cor == c ==> Posicoes(Mover(g, lo, co, ld, cd), c) == Posicoes(g, c) - {(lo, co)} + {(ld, cd)}
    ensures g[(lo, co)].cor != c ==> Posicoes(Mover(g, lo, co, ld, cd), c) == Posicoes(g, c)
  {
    var h := Mover(g, lo, co, ld, cd);
    assert h[(ld, cd)].cor == g[(lo, co)].cor;
  }

  /** Putting one element in place of another leaves the size of a set as it was. */
  lemma Troca<T>(a: set<T>, x: T, y: T)
    requires x in a && y !in a
    ensures |a - {x} + {y}| == |a|
  {
    var resto := a - {x};
    assert |resto| == |a| - 1;
    assert y !in resto;
  }

  /** An accepted move keeps the number of pieces of each colour: no jumped piece is taken. */
  lemma LanceConservaPecas(s: Estado, capturas: Oraculo, lo: int, co: int, ld: int, cd: int, c: Cor)
    requires Lance(s, capturas, lo, co, ld, cd).Success?
    ensures Contar(Lance(s, capturas, lo, co, ld, cd).value.grade, c) == Contar(s.grade, c)
  {
    DesfechoDoLance(s, capturas, lo, co, ld, cd);
    MoverConservaPecas(s.grade, lo, co, ld, cd, c);
  }

  /** A move wins only if the opponent had no piece before it. */
  lemma VitoriaSemOponente(s: Estado, capturas: Oraculo, lo: int, co: int, ld: int, cd: int)
    requires Lance(s, capturas, lo, co, ld, cd).Success? && Lance(s, capturas, lo, co, ld, cd).value.terminado
    ensures SemPecas(s.grade, Oponente(s.atual.corPecas))
  {
    var c := Oponente(s.atual.corPecas);
    DesfechoDoLance(s, capturas, lo, co, ld, cd);
    LanceConservaPecas(s, capturas, lo, co, ld, cd, c);
    SemPecasSeContagemZero(s.grade, c);
    SemPecasSeContagemZero(Mover(s.grade, lo, co, ld, cd), c);
  }

  /** An attempted move keeps the controller consistent. */
  lemma LanceConsistente(s: Estado, capturas: Oraculo, lo: int, co: int, ld: int, cd: int)
    requires Consistente(s) && Lance(s, capturas, lo, co, ld, cd).Success?
    ensures Consistente(Lance(s, capturas, lo, co, ld, cd).value)
  {
    DesfechoDoLance(s, capturas, lo, co, ld, cd);
    var g := Mover(s.grade, lo, co, ld, cd);
    assert g[(ld, cd)].cor == s.grade[(lo, co)].cor;
  }

  /** A pass of the game loop keeps the controller consistent and the number of pieces of
      each colour. */
  lemma RodadaConserva(s: Estado, capturas: Oraculo, j: Jogada)
    requires Consistente(s)
    ensures Consistente(Rodada(s, capturas, j))
    ensures Contar(Rodada(s, capturas, j).grade, Branca) == Contar(s.grade, Branca)
    ensures Contar(Rodada(s, capturas, j).grade, Preta) == Contar(s.grade, Preta)
  {
    var p := Preparar(s, capturas);
    if Lance(p, capturas, j.lo, j.co, j.ld, j.cd).Success? {
      LanceConsistente(p, capturas, j.lo, j.co, j.ld, j.cd);
      LanceConservaPecas(p, capturas, j.lo, j.co, j.ld, j.cd, Branca);
      LanceConservaPecas(p, capturas, j.lo, j.co, j.ld, j.cd, Preta);
    }
  }

  /** While both colours have pieces, a pass of the game loop does not end the game. */
  lemma RodadaSemFim(s: Estado, capturas: Oraculo, j: Jogada)
    requires !s.terminado && Contar(s.grade, Branca) > 0 && Contar(s.grade, Preta) > 0
    ensures !Rodada(s, capturas, j).terminado
  {
    var p := Preparar(s, capturas);
    if Lance(p, capturas, j.lo, j.co, j.ld, j.cd).Success? && Lance(p, capturas, j.lo, j.co, j.ld, j.cd).value.terminado {
      VitoriaSemOponente(p, capturas, j.lo, j.co, j.ld, j.cd);
      SemPecasSeContagemZero(p.grade, Oponente(p.atual.corPecas));
      assert false;
    }
  }

  /** Any sequence of passes keeps the controller consistent and the number of pieces of
      each colour, and does not end a game in which both colours have pieces. */
  lemma {:induction false} PartidaConserva(s: Estado, capturas: Oraculo, js: seq<Jogada>)
    requires Consistente(s) && !s.terminado && Contar(s.grade, Branca) > 0 && Contar(s.grade, Preta) > 0
    ensures Consistente(Partida(s, capturas, js))
    ensures Contar(Partida(s, capturas, js).grade, Branca) == Contar(s.grade, Branca)
    ensures Contar(Partida(s, capturas, js).grade, Preta) == Contar(s.grade, Preta)
    ensures !Partida(s, capturas, js).terminado
    decreases |js|
  {
    if |js| > 0 {
      RodadaConserva(s, capturas, js[0]);
      RodadaSemFim(s, capturas, js[0]);
      PartidaConserva(Rodada(s, capturas, js[0]), capturas, js[1..]);
    }
  }

  /** From the starting position, whatever moves are played and whatever captures the
      board reports, each side keeps its twelve men on the board and the game never ends:
      since moverPeca removes no jumped piece, verificarVitoria never succeeds. */
  lemma PartidaSemFim(capturas: Oraculo, js: seq<Jogada>)
    ensures Consistente(Partida(EstadoInicial(), capturas, js))
    ensures Contar(Partida(EstadoInicial(), capturas, js).grade, Branca) == 12
    ensures Contar(Partida(EstadoInicial(), capturas, js).grade, Preta) == 12
    ensures !Partida(EstadoInicial(), capturas, js).terminado
  {
    ContagemInicial(Branca);
    ContagemInicial(Preta);
    PartidaConserva(EstadoInicial(), capturas, js);
  }

  class Jogo {
    const tabuleiro: Tabuleiro
    const possiveisCapturas: Oraculo
    var jogadorAtual: Jogador
    var emSequenciaDeCaptura: bool
    var pecaEmSequencia: Casa?
    /** mandatoryCapturesMap, a local of the game loop that survives its iterations. */
    var capturasObrigatorias: Mapa
    /** The game loop has ended with a victory. */
    var terminado: bool

    ghost predicate Valid()
      reads this, tabuleiro, tabuleiro.casas, tabuleiro.Cells()
    {
      tabuleiro.Valid() && (pecaEmSequencia != null ==> pecaEmSequencia in tabuleiro.Cells())
    }

    /** The state as a value. */
    ghost function EstadoAtual(): Estado
      reads this, tabuleiro
    {
      Estado(
        tabuleiro.conteudo,
        jogadorAtual,
        emSequenciaDeCaptura,
        if pecaEmSequencia == null then None else Some((pecaEmSequencia.linha, pecaEmSequencia.coluna)),
        capturasObrigatorias,
        terminado)
    }

    /** The set-up of Jogo.iniciar (lines 48 and 52-58): a new board, white to move, no
        chain, no mandatory captures yet. */
    constructor (possiveisCapturas: Oraculo)
      ensures Valid() && fresh(tabuleiro)
      ensures this.possiveisCapturas == possiveisCapturas
      ensures EstadoAtual() == EstadoInicial()
    {
      tabuleiro := new Tabuleiro();
      this.possiveisCapturas := possiveisCapturas;
      jogadorAtual := Jogador1;
      emSequenciaDeCaptura := false;
      pecaEmSequencia := null;
      capturasObrigatorias := map[];
      terminado := false;
    }

    /** The squares of the active player's colour whose pieces can capture, each with
        its landing squares; a square that cannot capture is left out. */
    method EncontrarCapturasObrigatorias(jogador: Jogador) returns (m: Mapa)
      requires Valid()
      ensures m == CapturasObrigatorias(tabuleiro.conteudo, jogador.corPecas, possiveisCapturas)
    {
      var g := tabuleiro.Conteudo();
      m := map[];
      var linha := 0;
      while linha < TAMANHO
        invariant 0 <= linha <= TAMANHO
        invariant m == CapturasAte(g, jogador.corPecas, possiveisCapturas, linha, 0)
      {
        m := ExaminarLinha(jogador, g, linha, m);
        CapturasAteFimDaLinha(g, jogador.corPecas, possiveisCapturas, linha);
        linha := linha + 1;
      }
      CapturasAteTudo(g, jogador.corPecas, possiveisCapturas);
    }

    /** The inner loop of encontrarCapturasObrigatorias: the squares of one row. */
    method ExaminarLinha(jogador: Jogador, g: Grade, linha: int, m0: Mapa) returns (m: Mapa)
      requires Valid() && g == tabuleiro.conteudo && 0 <= linha < TAMANHO
      requires m0 == CapturasAte(g, jogador.corPecas, possiveisCapturas, linha, 0)
      ensures m == CapturasAte(g, jogador.corPecas, possiveisCapturas, linha, TAMANHO)
    {
      m := m0;
      var coluna := 0;
      while coluna < TAMANHO
        invariant 0 <= coluna <= TAMANHO
        invariant m == CapturasAte(g, jogador.corPecas, possiveisCapturas, linha, coluna)
      {
        var casaOrigem := tabuleiro.GetCasa(linha, coluna);
        tabuleiro.CasaNaPosicao(casaOrigem);
        assert PecaEm(g, linha, coluna) == casaOrigem.peca;
        ghost var antes := m;
        if casaOrigem != null && !casaOrigem.EstaVazia() && casaOrigem.peca.value.cor == jogador.corPecas {
          var possiveis := possiveisCapturas(g, linha, coluna);
          if |possiveis| > 0 {
            m := m[(linha, coluna) := possiveis];
          }
        }
        CapturasAteProxima(g, jogador.corPecas, possiveisCapturas, linha, coluna, antes, m);
        coluna := coluna + 1;
      }
    }

    /** The top of an iteration of the loop of Jogo.iniciar (lines 64-65). */
    method PrepararTurno()
      requires Valid()
      modifies this
      ensures Valid()
      ensures EstadoAtual() == Preparar(old(EstadoAtual()), possiveisCapturas)
    {
      if !emSequenciaDeCaptura {
        capturasObrigatorias := EncontrarCapturasObrigatorias(jogadorAtual);
      }
    }

    /** One pass of the loop of Jogo.iniciar (lines 60-199) once the move (lo, co) to (ld, cd) has
        been read: the turn is prepared and the move tried. */
    method JogarRodada(lo: int, co: int, ld: int, cd: int) returns (r: Outcome<Erro>)
      requires Valid()
      modifies this, tabuleiro, tabuleiro.Cells()
      ensures Valid()
      ensures EstadoAtual() == Rodada(old(EstadoAtual()), possiveisCapturas, Jogada(lo, co, ld, cd))
      ensures r.Fail? <==> Lance(Preparar(old(EstadoAtual()), possiveisCapturas), possiveisCapturas, lo, co, ld, cd).Failure?
      ensures r.Fail? ==> r.error == Lance(Preparar(old(EstadoAtual()), possiveisCapturas), possiveisCapturas, lo, co, ld, cd).error
    {
      PrepararTurno();
      r := TentarJogada(lo, co, ld, cd);
    }

    /** The acceptance checks of Jogo.iniciar (lines 98-143), made on the cells
        themselves; nothing changes. */
    method Validar(lo: int, co: int, ld: int, cd: int) returns (r: Option<Erro>)
      requires Valid()
      ensures r == Rejeicao(EstadoAtual(), lo, co, ld, cd)
    {
      ghost var g := tabuleiro.conteudo;
      if terminado {
        return Some(JogoEncerrado);
      }
      var casaOrigem := tabuleiro.GetCasa(lo, co);
      var casaDestino := tabuleiro.GetCasa(ld, cd);
      if casaOrigem == null || casaDestino == null {
        return Some(ForaDoTabuleiro);
      }
      tabuleiro.CasaNaPosicao(casaOrigem);
      assert PecaEm(g, lo, co) == casaOrigem.peca;
      if casaOrigem.EstaVazia() {
        return Some(OrigemVazia);
      }
      if casaOrigem.peca.value.cor != jogadorAtual.corPecas {
        return Some(CorErrada);
      }
      if emSequenciaDeCaptura {
        if pecaEmSequencia != null {
          tabuleiro.CasaNaPosicao(pecaEmSequencia);
        }
        if casaOrigem != pecaEmSequencia {
          return Some(SequenciaInterrompida);
        }
      } else if capturasObrigatorias != map[] {
        if (lo, co) !in capturasObrigatorias {
          return Some(OrigemSemCaptura);
        }
        var destinosPossiveis := capturasObrigatorias[(lo, co)];
        if (ld, cd) !in destinosPossiveis {
          return Some(DestinoSemCaptura);
        }
      }
      var deltaLinhaAbs := Abs(lo - ld);
      var deltaColunaAbs := Abs(co - cd);
      if capturasObrigatorias != map[] && !(deltaLinhaAbs > 1 && deltaColunaAbs > 1 && deltaLinhaAbs == deltaColunaAbs) {
        return Some(CapturaObrigatoria);
      }
      return None;
    }

    /** The body of the loop of Jogo.iniciar once a move has been read (lines 98-191): the move is
        checked and made, and the turn passes or the chain continues. A refused move
        changes nothing. */
    method TentarJogada(lo: int, co: int, ld: int, cd: int) returns (r: Outcome<Erro>)
      requires Valid()
      modifies this, tabuleiro, tabuleiro.Cells()
      ensures Valid()
      ensures Lance(old(EstadoAtual()), possiveisCapturas, lo, co, ld, cd).Failure? ==>
        r == Fail(Lance(old(EstadoAtual()), possiveisCapturas, lo, co, ld, cd).error) && EstadoAtual() == old(EstadoAtual())
      ensures Lance(old(EstadoAtual()), possiveisCapturas, lo, co, ld, cd).Success? ==>
        r == Pass && EstadoAtual() == Lance(old(EstadoAtual()), possiveisCapturas, lo, co, ld, cd).value
    {
      var erro := Validar(lo, co, ld, cd);
      if erro.Some? {
        return Fail(erro.value);
      }
      r := Executar(lo, co, ld, cd);
    }

    /** A move that passed the controller's checks (Jogo.iniciar, lines 154-191): moverPeca refuses an
        occupied destination and changes nothing; otherwise the piece moves and the move
        is concluded. */
    method Executar(lo: int, co: int, ld: int, cd: int) returns (r: Outcome<Erro>)
      requires Valid() && Rejeicao(EstadoAtual(), lo, co, ld, cd).None?
      modifies this, tabuleiro, tabuleiro.Cells()
      ensures Valid()
      ensures (ld, cd) in old(EstadoAtual()).grade ==> r == Fail(DestinoOcupado) && EstadoAtual() == old(EstadoAtual())
      ensures (ld, cd) !in old(EstadoAtual()).grade ==>
        r == Pass && EstadoAtual() == Efeito(old(EstadoAtual()), possiveisCapturas, lo, co, ld, cd)
    {
      ghost var s := EstadoAtual();
      var casaOrigem := tabuleiro.GetCasa(lo, co);
      var casaDestino := tabuleiro.GetCasa(ld, cd);
      tabuleiro.CasaNaPosicao(casaOrigem);
      tabuleiro.CasaNaPosicao(casaDestino);
      assert PecaEm(s.grade, lo, co) == casaOrigem.peca && PecaEm(s.grade, ld, cd) == casaDestino.peca;
      r := tabuleiro.MoverPeca(casaOrigem, casaDestino);
      if r.Fail? {
        return;
      }
      assert EstadoAtual() == s.(grade := Mover(s.grade, lo, co, ld, cd));
      var foiCaptura := Abs(lo - ld) > 1;
      Concluir(casaDestino, foiCaptura);
    }

    /** Jogo.iniciar, lines 164-191, after moverPeca: victory, chain or change of turn. */
    method Concluir(casaDestino: Casa, foiCaptura: bool)
      requires Valid() && casaDestino in tabuleiro.Cells()
      modifies this
      ensures Valid()
      ensures EstadoAtual() == Concluido(old(EstadoAtual()), possiveisCapturas, casaDestino.linha, casaDestino.coluna, foiCaptura)
    {
      var vitoria := tabuleiro.VerificarVitoria(jogadorAtual.corPecas);
      if vitoria {
        emSequenciaDeCaptura := false;
        pecaEmSequencia := null;
        terminado := true;
      } else {
        Prosseguir(casaDestino, foiCaptura);
      }
    }

    /** Jogo.iniciar, lines 172-191: no victory, so the chain continues or the turn passes. */
    method Prosseguir(casaDestino: Casa, foiCaptura: bool)
      requires Valid() && casaDestino in tabuleiro.Cells()
      requires !SemPecas(tabuleiro.conteudo, Oponente(jogadorAtual.corPecas))
      modifies this
      ensures Valid()
      ensures EstadoAtual() == Concluido(old(EstadoAtual()), possiveisCapturas, casaDestino.linha, casaDestino.coluna, foiCaptura)
    {
      var continua := false;
      if foiCaptura {
        var novasCapturas := possiveisCapturas(tabuleiro.Conteudo(), casaDestino.linha, casaDestino.coluna);
        continua := |novasCapturas| > 0;
      }
      if continua {
        emSequenciaDeCaptura := true;
        pecaEmSequencia := casaDestino;
      } else {
        emSequenciaDeCaptura := false;
        pecaEmSequencia := null;
        jogadorAtual := Alternar(jogadorAtual);
      }
    }
  }
}
