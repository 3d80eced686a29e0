/** A square of the board: fixed coordinates and a replaceable occupant. */
module Casas {
  import opened Wrappers
  import opened Pecas

  class Casa {
    /** The row and column are set by the constructor and never change. */
    const linha: int
    const coluna: int
    /** The piece on the square, None when the square is empty. */
    var peca: Option<Peca>

    /** A new square at (linha, coluna) holds no piece. */
    constructor (linha: int, coluna: int)
      ensures this.linha == linha && this.coluna == coluna
      ensures peca == None && EstaVazia()
    {
      this.linha := linha;
      this.coluna := coluna;
      this.peca := None;
    }

    /** Places p on the square (None empties it); the coordinates stay as they were. */
    method SetPeca(p: Option<Peca>)
      modifies this
      ensures peca == p
      ensures EstaVazia() <==> p == None
    {
      peca := p;
    }

    /** True when no piece is on the square. */
    predicate EstaVazia()
      reads this
      ensures EstaVazia() <==> peca == None
    {
      peca.None?
    }
  }
}
