/** The 8x8 board (Tabuleiro): its squares, the starting layout, moving a piece with
    promotion, and the victory test. */
module Tabuleiros {
  import opened Wrappers
  import opened Pecas
  import opened Casas
  import opened Erros

  /** The side of the board (Tabuleiro.TAMANHO). */
  const TAMANHO: int := 8

  /** A coordinate pair that names a square of the board. */
  predicate NoTabuleiro(linha: int, coluna: int)
  {
    0 <= linha < TAMANHO && 0 <= coluna < TAMANHO
  }

  /** The pieces on a board as a value: every occupied square mapped to its piece. */
  type Grade = map<(int, int), Peca>

  /** What stands on square (linha, coluna) of g. */
  function PecaEm(g: Grade, linha: int, coluna: int): Option<Peca>
  {
    if (linha, coluna) in g then Some(g[(linha, coluna)]) else None
  }

  /** No piece of colour c is on g. */
  predicate SemPecas(g: Grade, c: Cor)
  {
    forall k :: k in g ==> g[k].cor != c
  }

  /** The number of pieces of colour c on g. */
  ghost function Contar(g: Grade, c: Cor): nat
  {
    |Posicoes(g, c)|
  }

  /** The squares of g that hold a piece of colour c. */
  ghost function Posicoes(g: Grade, c: Cor): set<(int, int)>
  {
    set k | k in g && g[k].cor == c
  }

  /** The piece that stands on (linha, coluna) when a game begins: black men on the
      dark squares ((linha + coluna) odd) of rows 0-2, white men on those of rows 5-7.
      Tabuleiro.inicializarPecas builds these with `new Peca(cor)`; they behave as men. */
  function PecaInicial(linha: int, coluna: int): (r: Option<Peca>)
    ensures r.Some? <==> (linha + coluna) % 2 == 1 && (0 <= linha < 3 || 5 <= linha < TAMANHO)
    ensures r.Some? ==> !r.value.IsDama() && (r.value.cor == Preta <==> linha < 3)
  {
    if (linha + coluna) % 2 != 0 && 0 <= linha < 3 then Some(Peca(Preta, Regular))
    else if (linha + coluna) % 2 != 0 && 5 <= linha < TAMANHO then Some(Peca(Branca, Regular))
    else None
  }

  /** The starting layout as a value. */
  ghost function GradeInicial(): (g: Grade)
    ensures forall i, j :: NoTabuleiro(i, j) ==> PecaEm(g, i, j) == PecaInicial(i, j)
    ensures forall k :: k in g ==> NoTabuleiro(k.0, k.1)
  {
    map i, j | 0 <= i < TAMANHO && 0 <= j < TAMANHO && PecaInicial(i, j).Some? :: (i, j) := PecaInicial(i, j).value
  }

  /** The four squares of row i from column p on, every other column. */
  function LinhaInicial(i: int, p: int): set<(int, int)>
  {
    {(i, p), (i, p + 2), (i, p + 4), (i, p + 6)}
  }

  /** The squares of colour c in the starting layout, row by row. */
  function CasasIniciais(c: Cor): set<(int, int)>
  {
    if c == Preta then LinhaInicial(0, 1) + LinhaInicial(1, 0) + LinhaInicial(2, 1)
    else LinhaInicial(5, 0) + LinhaInicial(6, 1) + LinhaInicial(7, 0)
  }

  /** Every man of the starting layout stands on a listed square of its colour. */
  lemma CasaInicialListada(i: int, j: int)
    requires NoTabuleiro(i, j) && PecaInicial(i, j).Some?
    ensures (i, j) in CasasIniciais(PecaInicial(i, j).value.cor)
  {
    ColunaInicial(i, j);
    LinhaDaCor(i);
  }

  /** The listing of a starting row is part of the listing of the colour placed on it. */
  lemma LinhaDaCor(i: int)
    requires 0 <= i < 3 || 5 <= i < TAMANHO
    ensures LinhaInicial(i, (i + 1) % 2) <= CasasIniciais(if i < 3 then Preta else Branca)
  {
    if i < 3 { LinhaPreta(i); } else { LinhaBranca(i); }
  }

  /** Rows 0-2 are listed for black. */
  lemma LinhaPreta(i: int)
    requires 0 <= i < 3
    ensures LinhaInicial(i, (i + 1) % 2) <= CasasIniciais(Preta)
  {
    if i == 0 {} else if i == 1 {} else {}
  }

  /** Rows 5-7 are listed for white. */
  lemma LinhaBranca(i: int)
    requires 5 <= i < TAMANHO
    ensures LinhaInicial(i, (i + 1) % 2) <= CasasIniciais(Branca)
  {
    if i == 5 {} else if i == 6 {} else {}
  }

  /** A dark square of row i lies on the row's listing, which starts at column (i + 1) % 2. */
  lemma ColunaInicial(i: int, j: int)
    requires 0 <= i && 0 <= j < TAMANHO && (i + j) % 2 != 0
    ensures (i, j) in LinhaInicial(i, (i + 1) % 2)
  {
    if j == 0 {} else if j == 1 {} else if j == 2 {} else if j == 3 {}
    else if j == 4 {} else if j == 5 {} else if j == 6 {} else {}
  }

  /** Each man of colour c in the starting layout stands on a square of CasasIniciais(c). */
  lemma IniciaisListadas(c: Cor, k: (int, int))
    requires k in GradeInicial() && GradeInicial()[k].cor == c
    ensures k in CasasIniciais(c)
  {
    assert PecaEm(GradeInicial(), k.0, k.1) == PecaInicial(k.0, k.1);
    CasaInicialListada(k.0, k.1);
  }

  /** Each square of CasasIniciais(c) holds a man of colour c in the starting layout. */
  lemma ListadasIniciais(c: Cor, k: (int, int))
    requires k in CasasIniciais(c)
    ensures k in GradeInicial() && GradeInicial()[k].cor == c
  {
    if c == Preta { ListadasPretas(k); } else { ListadasBrancas(k); }
  }

  /** The squares listed for black hold black men at the start. */
  lemma ListadasPretas(k: (int, int))
    requires k in LinhaInicial(0, 1) + LinhaInicial(1, 0) + LinhaInicial(2, 1)
    ensures k in GradeInicial() && GradeInicial()[k].cor == Preta
  {
    if k in LinhaInicial(0, 1) { LinhaListada(0, 1, k); }
    else if k in LinhaInicial(1, 0) { LinhaListada(1, 0, k); }
    else { LinhaListada(2, 1, k); }
  }

  /** The squares listed for white hold white men at the start. */
  lemma ListadasBrancas(k: (int, int))
    requires k in LinhaInicial(5, 0) + LinhaInicial(6, 1) + LinhaInicial(7, 0)
    ensures k in GradeInicial() && GradeInicial()[k].cor == Branca
  {
    if k in LinhaInicial(5, 0) { LinhaListada(5, 0, k); }
    else if k in LinhaInicial(6, 1) { LinhaListada(6, 1, k); }
    else { LinhaListada(7, 0, k); }
  }

  /** A square listed for row i (i + p odd) holds a man: black on rows 0-2, white on rows 5-7. */
  lemma LinhaListada(i: int, p: int, k: (int, int))
    requires 0 <= p <= 1 && (i + p) % 2 == 1 && (0 <= i < 3 || 5 <= i < TAMANHO)
    requires k in LinhaInicial(i, p)
    ensures k in GradeInicial() && GradeInicial()[k] == Peca(if i < 3 then Preta else Branca, Regular)
  {
    assert (i + p + 2) % 2 == 1 && (i + p + 4) % 2 == 1 && (i + p + 6) % 2 == 1;
    var (a, b) := k;
    assert a == i && 0 <= b < TAMANHO && (a + b) % 2 != 0;
    assert PecaInicial(a, b) == Some(Peca(if i < 3 then Preta else Branca, Regular));
    assert PecaEm(GradeInicial(), a, b) == PecaInicial(a, b);
  }

  /** The men of colour c in the starting layout stand exactly on CasasIniciais(c). */
  lemma PosicoesIniciais(c: Cor)
    ensures Posicoes(GradeInicial(), c) == CasasIniciais(c)
  {
    forall k | k in GradeInicial() && GradeInicial()[k].cor == c
      ensures k in CasasIniciais(c)
    {
      IniciaisListadas(c, k);
    }
    forall k | k in CasasIniciais(c)
      ensures k in GradeInicial() && GradeInicial()[k].cor == c
    {
      ListadasIniciais(c, k);
    }
  }

  /** A row of the starting layout has four squares. */
  lemma TamanhoLinhaInicial(i: int, p: int)
    ensures |LinhaInicial(i, p)| == 4
    ensures forall k :: k in LinhaInicial(i, p) ==> k.0 == i
  {
  }

  /** Three sets of four squares on three different rows make twelve squares. */
  lemma TresLinhas(r0: set<(int, int)>, r1: set<(int, int)>, r2: set<(int, int)>, i0: int, i1: int, i2: int)
    requires |r0| == 4 && |r1| == 4 && |r2| == 4
    requires forall k :: k in r0 ==> k.0 == i0
    requires forall k :: k in r1 ==> k.0 == i1
    requires forall k :: k in r2 ==> k.0 == i2
    requires i0 < i1 < i2
    ensures |r0 + r1 + r2| == 12
  {
    assert r0 !! r1;
    assert (r0 + r1) !! r2;
  }

  /** Twelve squares are listed for each colour. */
  lemma TamanhoCasasIniciais(c: Cor)
    ensures |CasasIniciais(c)| == 12
  {
    var a, p := if c == Preta then 0 else 5, if c == Preta then 1 else 0;
    TamanhoLinhaInicial(a, p);
    TamanhoLinhaInicial(a + 1, 1 - p);
    TamanhoLinhaInicial(a + 2, p);
    TresLinhas(LinhaInicial(a, p), LinhaInicial(a + 1, 1 - p), LinhaInicial(a + 2, p), a, a + 1, a + 2);
  }

  /** The starting layout puts twelve men of each colour on the board. */
  lemma ContagemInicial(c: Cor)
    ensures Contar(GradeInicial(), c) == 12
  {
    PosicoesIniciais(c);
    TamanhoCasasIniciais(c);
  }

  /** No piece of colour c is left exactly when c's count is zero. */
  lemma SemPecasSeContagemZero(g: Grade, c: Cor)
    ensures SemPecas(g, c) <==> Contar(g, c) == 0
  {
    var deCor := Posicoes(g, c);
    if !SemPecas(g, c) {
      var k :| k in g && g[k].cor == c;
      assert k in deCor;
    } else {
      assert deCor == {};
    }
  }

  /** The promotion step of moverPeca: a white man landing on row 0, or a black man
      landing on row 7, becomes a king of its colour; any other piece stays as it is. */
  function Promover(p: Peca, linha: int): (q: Peca)
    ensures q.cor == p.cor
    ensures q.IsDama() <==> p.IsDama() || (p.cor == Branca && linha == 0) || (p.cor == Preta && linha == TAMANHO - 1)
    ensures p.IsDama() ==> q == p
    ensures !((p.cor == Branca && linha == 0) || (p.cor == Preta && linha == TAMANHO - 1)) ==> q == p
  {
    if p.cor == Branca && linha == 0 then
      (if !p.IsDama() then Peca(Branca, Dama) else p)
    else if p.cor == Preta && linha == TAMANHO - 1 then
      (if !p.IsDama() then Peca(Preta, Dama) else p)
    else p
  }

  /** Promoting twice on the same row is promoting once. */
  lemma PromoverIdempotente(p: Peca, linha: int)
    ensures Promover(Promover(p, linha), linha) == Promover(p, linha)
  {
  }

  /** Two grades whose pieces lie on the board are equal when they agree on every square. */
  lemma GradesIguais(g1: Grade, g2: Grade)
    requires forall k :: k in g1 ==> NoTabuleiro(k.0, k.1)
    requires forall k :: k in g2 ==> NoTabuleiro(k.0, k.1)
    requires forall i, j :: NoTabuleiro(i, j) ==> PecaEm(g1, i, j) == PecaEm(g2, i, j)
    ensures g1 == g2
  {
    forall k | k in g1 || k in g2
      ensures k in g1 && k in g2 && g1[k] == g2[k]
    {
      assert PecaEm(g1, k.0, k.1) == PecaEm(g2, k.0, k.1);
    }
  }

  class Tabuleiro {
    /** The 64 squares; the grid is allocated once and never replaced. */
    const casas: array2<Casa?>

    /** The pieces on the board as a value. */
    ghost var conteudo: Grade

    /** The squares of the board. */
    ghost function Cells(): set<Casa?>
      reads this, casas
    {
      set i, j | 0 <= i < casas.Length0 && 0 <= j < casas.Length1 :: casas[i, j]
    }

    /** The grid is 8x8 and the square at [i, j] exists and knows it is (i, j). */
    ghost predicate Grelha()
      reads this, casas
    {
      casas.Length0 == TAMANHO && casas.Length1 == TAMANHO &&
      forall i, j :: 0 <= i < TAMANHO && 0 <= j < TAMANHO ==>
        casas[i, j] != null && casas[i, j].linha == i && casas[i, j].coluna == j
    }

    /** A well-formed grid whose squares hold exactly what conteudo says. */
    ghost predicate Valid()
      reads this, casas, Cells()
    {
      Grelha() &&
      (forall i, j :: NoTabuleiro(i, j) ==> casas[i, j].peca == PecaEm(conteudo, i, j)) &&
      (forall k :: k in conteudo ==> NoTabuleiro(k.0, k.1))
    }

    /** The pieces on the board, read off its squares. */
    function Conteudo(): (g: Grade)
      requires Valid()
      reads this, casas, Cells()
      ensures g == conteudo
    {
      var g := map i, j | 0 <= i < TAMANHO && 0 <= j < TAMANHO && casas[i, j].peca.Some? :: (i, j) := casas[i, j].peca.value;
      GradesIguais(g, conteudo);
      g
    }

    /** A new board: 64 empty squares, then the starting layout. */
    constructor ()
      ensures Valid()
      ensures fresh(casas)
      ensures forall i, j :: 0 <= i < TAMANHO && 0 <= j < TAMANHO ==> fresh(casas[i, j])
      ensures conteudo == GradeInicial()
    {
      var grade := new Casa?[TAMANHO, TAMANHO];
      var linha := 0;
      while linha < TAMANHO
        invariant 0 <= linha <= TAMANHO
        invariant forall i, j :: 0 <= i < linha && 0 <= j < TAMANHO ==>
          grade[i, j] != null && fresh(grade[i, j]) && grade[i, j].linha == i && grade[i, j].coluna == j && grade[i, j].peca == None
      {
        var coluna := 0;
        while coluna < TAMANHO
          invariant 0 <= coluna <= TAMANHO
          invariant forall i, j :: (0 <= i < linha && 0 <= j < TAMANHO) || (i == linha && 0 <= j < coluna) ==>
            grade[i, j] != null && fresh(grade[i, j]) && grade[i, j].linha == i && grade[i, j].coluna == j && grade[i, j].peca == None
        {
          grade[linha, coluna] := new Casa(linha, coluna);
          coluna := coluna + 1;
        }
        linha := linha + 1;
      }
      casas := grade;
      conteudo := map[];
      new;
      InicializarPecas();
      GradesIguais(conteudo, GradeInicial());
    }

    /** Puts the starting men on the board; squares off the layout keep what they held. */
    method InicializarPecas()
      requires Valid()
      modifies this, Cells()
      ensures Valid()
      ensures forall i, j :: NoTabuleiro(i, j) ==>
        PecaEm(conteudo, i, j) == if PecaInicial(i, j).Some? then PecaInicial(i, j) else PecaEm(old(conteudo), i, j)
    {
      ghost var antes := conteudo;
      // Black men
      var linha := 0;
      while linha < 3
        invariant 0 <= linha <= 3
        invariant forall i, j :: NoTabuleiro(i, j) ==>
          casas[i, j].peca == if i < linha && PecaInicial(i, j).Some? then PecaInicial(i, j) else PecaEm(antes, i, j)
      {
        ColocarLinha(linha, Preta);
        linha := linha + 1;
      }
      // White men
      linha := 5;
      while linha < TAMANHO
        invariant 5 <= linha <= TAMANHO
        invariant forall i, j :: NoTabuleiro(i, j) ==>
          casas[i, j].peca == if (i < 3 || (5 <= i < linha)) && PecaInicial(i, j).Some? then PecaInicial(i, j) else PecaEm(antes, i, j)
      {
        ColocarLinha(linha, Branca);
        linha := linha + 1;
      }
      conteudo := antes + GradeInicial();
      forall i, j | NoTabuleiro(i, j)
        ensures PecaEm(conteudo, i, j) == if PecaInicial(i, j).Some? then PecaInicial(i, j) else PecaEm(antes, i, j)
      {
        assert PecaEm(GradeInicial(), i, j) == PecaInicial(i, j);
      }
    }

    /** The inner loop of inicializarPecas: a man of colour cor on every dark square of
        row linha; every other square keeps what it held. */
    method ColocarLinha(linha: int, cor: Cor)
      requires Grelha() && 0 <= linha < TAMANHO
      modifies Cells()
      ensures forall i, j :: NoTabuleiro(i, j) ==>
        casas[i, j].peca == if i == linha && (i + j) % 2 != 0 then Some(Peca(cor, Regular)) else old(casas[i, j].peca)
    {
      var coluna := 0;
      while coluna < TAMANHO
        invariant 0 <= coluna <= TAMANHO
        invariant forall i, j :: NoTabuleiro(i, j) ==>
          casas[i, j].peca == if i == linha && j < coluna && (i + j) % 2 != 0 then Some(Peca(cor, Regular)) else old(casas[i, j].peca)
      {
        if (linha + coluna) % 2 != 0 {
          assert casas[linha, coluna] in Cells();
          casas[linha, coluna].SetPeca(Some(Peca(cor, Regular)));
        }
        coluna := coluna + 1;
      }
    }

    /** The square at (linha, coluna), or null when that lies off the board. */
    function GetCasa(linha: int, coluna: int): (r: Casa?)
      requires Grelha()
      reads this, casas
      ensures r == null <==> !NoTabuleiro(linha, coluna)
      ensures r != null ==> r.linha == linha && r.coluna == coluna && r in Cells()
    {
      if linha >= 0 && linha < TAMANHO && coluna >= 0 && coluna < TAMANHO then casas[linha, coluna]
      else null
    }

    /** Moves the piece on origem to destino and promotes it there. Fails, changing
        nothing, when origem is empty or destino is occupied. The squares in between
        are not looked at and no jumped piece is removed. */
    method MoverPeca(origem: Casa, destino: Casa) returns (r: Outcome<Erro>)
      requires Valid() && origem in Cells() && destino in Cells()
      modifies this, origem, destino
      ensures Valid()
      ensures old(origem.peca).None? ==> r == Fail(OrigemVazia)
      ensures old(origem.peca).Some? && old(destino.peca).Some? ==> r == Fail(DestinoOcupado)
      ensures r.Pass? <==> old(origem.peca).Some? && old(destino.peca).None?
      ensures r.Fail? ==> origem.peca == old(origem.peca) && destino.peca == old(destino.peca)
      ensures r.Fail? ==> conteudo == old(conteudo)
      ensures r.Pass? ==> origem.peca == None && destino.peca == Some(Promover(old(origem.peca).value, destino.linha))
      ensures r.Pass? ==>
        conteudo == (old(conteudo) - {(origem.linha, origem.coluna)})[(destino.linha, destino.coluna) := Promover(old(origem.peca).value, destino.linha)]
    {
      if origem.EstaVazia() {
        return Fail(OrigemVazia);
      }
      if !destino.EstaVazia() {
        return Fail(DestinoOcupado);
      }
      ghost var antes := conteudo;
      var peca := origem.peca.value;
      destino.SetPeca(Some(peca));
      origem.SetPeca(None);

      // Promotion
      if peca.cor == Branca && destino.linha == 0 {
        if !peca.IsDama() {
          destino.SetPeca(Some(Peca(Branca, Dama)));
        }
      } else if peca.cor == Preta && destino.linha == TAMANHO - 1 {
        if !peca.IsDama() {
          destino.SetPeca(Some(Peca(Preta, Dama)));
        }
      }
      conteudo := (antes - {(origem.linha, origem.coluna)})[(destino.linha, destino.coluna) := destino.peca.value];
      Movimento(antes, origem, destino);
      r := Pass;
    }

    /** If the board held antes and since then only origem and destino changed, origem
        emptied and destino now occupied, the squares agree with antes moved from origem
        to destino. */
    lemma Movimento(antes: Grade, origem: Casa, destino: Casa)
      requires Grelha() && origem in Cells() && destino in Cells()
      requires forall k :: k in antes ==> NoTabuleiro(k.0, k.1)
      requires origem.peca == None && destino.peca.Some?
      requires forall i, j :: NoTabuleiro(i, j) && casas[i, j] != origem && casas[i, j] != destino ==>
        casas[i, j].peca == PecaEm(antes, i, j)
      requires conteudo == (antes - {(origem.linha, origem.coluna)})[(destino.linha, destino.coluna) := destino.peca.value]
      ensures Valid()
    {
      CasaNaPosicao(origem);
      CasaNaPosicao(destino);
      forall i, j | NoTabuleiro(i, j)
        ensures casas[i, j].peca == PecaEm(conteudo, i, j)
      {
        if (i, j) != (origem.linha, origem.coluna) && (i, j) != (destino.linha, destino.coluna) {
          assert casas[i, j] != origem && casas[i, j] != destino;
        }
      }
    }

    /** A square of the board sits in the grid at its own coordinates. */
    lemma CasaNaPosicao(x: Casa?)
      requires Grelha() && x in Cells()
      ensures x != null && NoTabuleiro(x.linha, x.coluna) && casas[x.linha, x.coluna] == x
    {
    }

    /** The board's own move check, a placeholder in Tabuleiro.isMovimentoValido: both squares exist and
        the origin is occupied. */
    predicate IsMovimentoValido(origem: Casa?, destino: Casa?)
      reads origem, destino
      ensures IsMovimentoValido(origem, destino) <==> origem != null && destino != null && origem.peca.Some?
    {
      if origem == null || destino == null || origem.EstaVazia() then false
      else true
    }

    /** The board's capture check, a placeholder in Tabuleiro.isCapturaValida: it accepts nothing. */
    predicate IsCapturaValida(origem: Casa?, intermediaria: Casa?, destino: Casa?)
      ensures !IsCapturaValida(origem, intermediaria, destino)
    {
      false
    }

    /** True when the opponent of corJogadorAtual has no piece left on the board. */
    method VerificarVitoria(corJogadorAtual: Cor) returns (vitoria: bool)
      requires Valid()
      ensures vitoria <==> SemPecas(conteudo, Oponente(corJogadorAtual))
    {
      var corOponente := Oponente(corJogadorAtual);
      var contadorOponente := 0;
      var i := 0;
      while i < TAMANHO
        invariant 0 <= i <= TAMANHO && contadorOponente >= 0
        invariant contadorOponente == 0 <==>
          forall a, b :: 0 <= a < i && 0 <= b < TAMANHO ==> !DaCor(casas[a, b], corOponente)
      {
        var j := 0;
        while j < TAMANHO
          invariant 0 <= j <= TAMANHO && contadorOponente >= 0
          invariant contadorOponente == 0 <==>
            forall a, b :: (0 <= a < i && 0 <= b < TAMANHO) || (a == i && 0 <= b < j) ==> !DaCor(casas[a, b], corOponente)
        {
          var casa := casas[i, j];
          if !casa.EstaVazia() && casa.peca.value.cor == corOponente {
            contadorOponente := contadorOponente + 1;
          }
          j := j + 1;
        }
        i := i + 1;
      }
      vitoria := contadorOponente == 0;
    }
  }

  /** The square holds a piece of colour c. */
  predicate DaCor(casa: Casa?, c: Cor)
    reads casa
  {
    casa != null && casa.peca.Some? && casa.peca.value.cor == c
  }
}
