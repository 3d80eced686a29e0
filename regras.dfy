/** Movement rules of the two kinds of piece (PecaRegular.isMovimentoValido and
    Dama.isMovimentoValido), dispatched on the kind as Peca.isMovimentoValido is. */
module Regras {
  import opened Pecas
  import opened Casas

  function Abs(x: int): (r: int)
    ensures r >= 0 && (r == x || r == -x)
  {
    if x < 0 then -x else x
  }

  /** Both squares exist, the origin is occupied and the destination is empty: the
      checks both kinds make before looking at the geometry. */
  predicate Ocupacao(origem: Casa?, destino: Casa?)
    reads origem, destino
  {
    origem != null && destino != null && !origem.EstaVazia() && destino.EstaVazia()
  }

  /** A man moves exactly one square diagonally, forward or backward. */
  predicate MovimentoRegularValido(origem: Casa?, destino: Casa?)
    reads origem, destino
    ensures MovimentoRegularValido(origem, destino) <==>
              Ocupacao(origem, destino)
              && Abs(destino.linha - origem.linha) == 1
              && Abs(destino.coluna - origem.coluna) == 1
  {
    if origem == null || destino == null then false
    else if origem.EstaVazia() || !destino.EstaVazia() then false
    else
      var deltaLinha := destino.linha - origem.linha;
      var deltaColuna := Abs(destino.coluna - origem.coluna);
      if deltaColuna != 1 then false
      else Abs(deltaLinha) == 1
  }

  /** A king moves any distance along a diagonal; the squares in between are not looked at. */
  predicate MovimentoDamaValido(origem: Casa?, destino: Casa?)
    reads origem, destino
    ensures MovimentoDamaValido(origem, destino) <==>
              Ocupacao(origem, destino)
              && Abs(origem.linha - destino.linha) == Abs(origem.coluna - destino.coluna)
  {
    if origem == null || destino == null then false
    else if origem.EstaVazia() || !destino.EstaVazia() then false
    else Abs(origem.linha - destino.linha) == Abs(origem.coluna - destino.coluna)
  }

  /** The abstract Peca.isMovimentoValido: the rule is chosen by the kind of the piece
      the question is put to; its colour plays no part. */
  predicate MovimentoValido(p: Peca, origem: Casa?, destino: Casa?)
    reads origem, destino
    ensures MovimentoValido(p, origem, destino) ==>
              Ocupacao(origem, destino) && origem != destino
              && Abs(destino.linha - origem.linha) == Abs(destino.coluna - origem.coluna)
              && (p.tipo == Regular ==> Abs(destino.linha - origem.linha) == 1)
  {
    match p.tipo
    case Regular => MovimentoRegularValido(origem, destino)
    case Dama => MovimentoDamaValido(origem, destino)
  }

  /** Neither rule accepts a missing square, an empty origin or an occupied destination. */
  lemma RejeitaSemOcupacao(p: Peca, origem: Casa?, destino: Casa?)
    requires !Ocupacao(origem, destino)
    ensures !MovimentoValido(p, origem, destino)
  {
  }

  /** Both forward and backward steps are one rule: swapping the colour of the piece
      never changes the answer. */
  lemma IndependeDaCor(t: Tipo, origem: Casa?, destino: Casa?)
    ensures MovimentoValido(Peca(Branca, t), origem, destino)
        == MovimentoValido(Peca(Preta, t), origem, destino)
  {
  }

  /** A man's step is accepted in all four diagonal directions. */
  lemma RegularQuatroDirecoes(c: Cor, origem: Casa, destino: Casa)
    requires origem.peca.Some? && destino.peca.None?
    requires Abs(destino.linha - origem.linha) == 1 && Abs(destino.coluna - origem.coluna) == 1
    ensures MovimentoValido(Peca(c, Regular), origem, destino)
  {
  }

  /** Horizontal, vertical and longer moves are refused to a man. */
  lemma RegularRejeitaOutrasFormas(c: Cor, origem: Casa, destino: Casa)
    requires destino.linha == origem.linha || destino.coluna == origem.coluna
             || Abs(destino.linha - origem.linha) > 1 || Abs(destino.coluna - origem.coluna) > 1
    ensures !MovimentoValido(Peca(c, Regular), origem, destino)
  {
  }

  /** Horizontal and vertical moves are refused to a king (DamaNaoFicaParada covers staying
      in place). */
  lemma DamaRejeitaOrtogonal(c: Cor, origem: Casa?, destino: Casa?)
    requires origem != null && destino != null
    requires (destino.linha == origem.linha) != (destino.coluna == origem.coluna)
    ensures !MovimentoValido(Peca(c, Dama), origem, destino)
  {
  }

  /** A king never "moves" to its own square: that square cannot be both occupied and empty. */
  lemma DamaNaoFicaParada(c: Cor, casa: Casa?)
    ensures !MovimentoValido(Peca(c, Dama), casa, casa)
  {
  }

  /** A king may pass over occupied squares: only the two end squares are looked at, so
      any diagonal move from an occupied square to an empty one is accepted, whatever
      lies in between. */
  lemma DamaIgnoraCaminho(c: Cor, origem: Casa, destino: Casa)
    requires origem.peca.Some? && destino.peca.None?
    requires Abs(destino.linha - origem.linha) == Abs(destino.coluna - origem.coluna)
    ensures MovimentoValido(Peca(c, Dama), origem, destino)
  {
  }

  /** Every move a man may make, a king may make too. */
  lemma RegularImplicaDama(c: Cor, origem: Casa?, destino: Casa?)
    ensures MovimentoValido(Peca(c, Regular), origem, destino)
        ==> MovimentoValido(Peca(c, Dama), origem, destino)
  {
  }
}
