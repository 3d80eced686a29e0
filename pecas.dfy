/** Pieces: their colour (Peca.Cor) and their kind (PecaRegular or Dama). */
module Pecas {

  /** The two colours of the game; white moves first. */
  datatype Cor = Branca | Preta

  /** A man (PecaRegular) or a king (Dama). */
  datatype Tipo = Regular | Dama

  /** A piece. Its colour is fixed at construction and has no setter; its kind is the subclass. */
  datatype Peca = Peca(cor: Cor, tipo: Tipo)
  {
    /** The piece is a king. */
    predicate IsDama() { tipo == Dama }
  }

  /** The colour that plays against c. */
  function Oponente(c: Cor): (o: Cor)
    ensures o != c
  {
    if c == Branca then Preta else Branca
  }

  /** A piece keeps the colour it was built with: getCor returns the constructor's argument. */
  lemma CorDaPeca(c: Cor, t: Tipo)
    ensures Peca(c, t).cor == c
    ensures Peca(c, t).IsDama() <==> t == Dama
  {
  }

  /** There are exactly two colours, and Oponente swaps them. */
  lemma DuasCores(c: Cor)
    ensures c == Branca || c == Preta
    ensures Oponente(Oponente(c)) == c
  {
  }
}
