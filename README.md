# DamasGame rule engine in Dafny

A model of the rule engine of DamasGame, an 8×8 checkers (damas) game written in Java, with
proofs about it. It covers:

- the board (`Tabuleiro`): an 8×8 grid of squares (`Casa`) with their starting layout,
  bounds-checked lookup, moving a piece with promotion, and the victory test;
- the movement rules of men (`PecaRegular`) and kings (`Dama`);
- the turn controller (`Jogo`): the scan for mandatory captures and the body of the game loop,
  which checks a move, makes it, and then ends the game, continues a capture chain or passes
  the turn.

Modules:

- `Wrappers`: `Option`, `Outcome` and `Result`. These stand in for Java's null references and
  for the exception that refuses a move.
- `Pecas`: colour, kind and piece.
- `Casas`: the mutable square class.
- `Regras`: the two movement rules and the dispatch on the kind of piece.
- `Erros`: one constructor per reason a move is refused, plus `JogoEncerrado` for a move
  attempted after the loop of `Jogo.iniciar` has ended.
- `Tabuleiros`: the board class, plus the value view of its pieces (`Grade`, a map from
  coordinates to pieces) and the starting layout as a value.
- `Controle`: the game class, plus the controller's state as a value (`Estado`) and the
  transition functions that specify it: `Preparar`, `Rejeicao`, `Lance`, `Rodada` and
  `Partida`.

How the model is built:

- The board keeps a ghost map `conteudo` that its invariant `Valid()` ties to the 64 squares.
  Every method on the board and the game is proved against that map and the value-level
  transition functions.
- `Tabuleiro.getPossiveisCapturas` is called by the controller but defined nowhere. The game
  therefore takes it as a constructor parameter (`Oraculo`). Its type alone fixes two
  things. The capture list is a side-effect-free function of the pieces on the board and
  the square asked about, and it names its landing squares by their coordinates. Nothing
  more is assumed about it, and every property about the controller holds for every such
  function.

What the proofs show:

- The starting layout puts twelve men of each colour on the dark squares of rows 0-2 (black)
  and 5-7 (white).
- `moverPeca` refuses an empty origin or an occupied destination and then changes nothing.
  Otherwise it moves the piece, promotes it on the far row and removes no jumped piece.
- Mandatory captures are enforced in both directions:
  - outside a capture chain, while the mandatory map is non-empty, a move is accepted
    exactly when it is a listed jump to a free square;
  - outside a capture chain, with an empty map, any move of one's own piece to a free
    square is accepted.
- During a capture chain only the chain's piece may move. Its move to a free square is
  accepted exactly when the map kept from the start of the turn is empty or the move is a
  diagonal jump. That map's keys and landing squares are not consulted then.
- After an accepted move the game ends, the chain continues or the turn passes, exactly
  as the code decides.
- `moverPeca` removes no piece, so every accepted move keeps the number of pieces of each
  colour. Consequently, from the starting position no sequence of moves ever ends the game,
  whatever the capture function reports (`Controle.PartidaSemFim`).

## Model

| member | source | states |
|---|---|---|
| Pecas.Oponente | src/modelo/Tabuleiro.java:123 | the opponent's colour is the other colour |
| Pecas.CorDaPeca | src/modelo/Peca.java:15-25 | a piece's colour is the one it was built with, and `Pecas.Peca.IsDama` (the `isDama()` called at Tabuleiro.java:98 and 102) holds exactly when its kind is Dama |
| Pecas.DuasCores | src/modelo/Peca.java:9-12 | there are exactly two colours, and taking the opponent twice gives the colour back |
| Casas.Casa.constructor | src/modelo/Casa.java:25-29 | a new square has the given row and column and is empty |
| Casas.Casa.EstaVazia | src/modelo/Casa.java:81-83 | true exactly when the square holds no piece |
| Casas.Casa.SetPeca | src/modelo/Casa.java:71-73 | afterwards the square holds the given piece, and it is empty exactly when that piece is absent; the coordinates are constants |
| Regras.Abs | src/modelo/PecaRegular.java:41 | the absolute value is non-negative and equals x or -x |
| Regras.MovimentoRegularValido | src/modelo/PecaRegular.java:30-51 | true exactly when both squares exist, the origin is occupied, the destination is empty and both the row and the column change by exactly one |
| Regras.MovimentoDamaValido | src/modelo/Dama.java:14-25 | true exactly when both squares exist, the origin is occupied, the destination is empty and the row and column changes have equal size |
| Regras.MovimentoValido | src/modelo/Peca.java:36 | the rule is chosen by the piece's kind; an accepted move has both squares, distinct, with an occupied origin and an empty destination, lies on a diagonal, and is a single step for a man |
| Regras.RejeitaSemOcupacao | src/modelo/PecaRegular.java:31-36 | for either kind, a missing square, an empty origin or an occupied destination is refused |
| Regras.IndependeDaCor | src/modelo/PecaRegular.java:40-50 | the answer does not depend on the piece's colour, so forward and backward moves are treated alike |
| Regras.RegularQuatroDirecoes | src/modelo/PecaRegular.java:40-50 | a man's single diagonal step to an empty square is accepted in all four directions |
| Regras.RegularRejeitaOutrasFormas | src/modelo/PecaRegular.java:45-50 | horizontal, vertical and longer moves are refused to a man |
| Regras.DamaRejeitaOrtogonal | src/modelo/Dama.java:24 | a king's horizontal or vertical move is refused |
| Regras.DamaNaoFicaParada | src/modelo/Dama.java:18-20 | a king is never accepted moving from a square to the same square |
| Regras.DamaIgnoraCaminho | src/modelo/Dama.java:22-24 | any diagonal king move from an occupied square to an empty one is accepted, whatever the squares in between hold |
| Regras.RegularImplicaDama | src/modelo/Dama.java:24 | every move accepted for a man is accepted for a king |
| Tabuleiros.PecaInicial | src/modelo/Tabuleiro.java:22-40 | a square holds a piece at the start exactly when its row plus column is odd and it lies on rows 0-2 or 5-7; that piece is a man, black on rows 0-2 and white on rows 5-7 |
| Tabuleiros.GradeInicial | src/modelo/Tabuleiro.java:22-40 | the starting layout has, on every square of the board, the piece the layout rule gives it, and nothing off the board |
| Tabuleiros.PosicoesIniciais | src/modelo/Tabuleiro.java:22-40 | the squares holding colour c at the start are exactly the listed dark squares of c's three rows |
| Tabuleiros.ContagemInicial | src/modelo/Tabuleiro.java:22-40 | the starting layout holds twelve pieces of each colour |
| Tabuleiros.SemPecasSeContagemZero | src/modelo/Tabuleiro.java:122-134 | a colour has no piece on the board exactly when its count is zero |
| Tabuleiros.Promover | src/modelo/Tabuleiro.java:96-105 | promotion keeps the colour; the result is a king exactly when the piece was one or is a man landing on its far row; a king, or a piece off its far row, is unchanged |
| Tabuleiros.PromoverIdempotente | src/modelo/Tabuleiro.java:97-104 | promoting what was already promoted on the same row changes nothing |
| Tabuleiros.Tabuleiro.Conteudo | src/modelo/Tabuleiro.java:10 | reading the pieces off the 64 squares gives exactly the board's contents |
| Tabuleiros.Tabuleiro.constructor | src/modelo/Tabuleiro.java:12-20 | a new board is a well-formed 8x8 grid of fresh squares holding the starting layout |
| Tabuleiros.Tabuleiro.InicializarPecas | src/modelo/Tabuleiro.java:22-40 | every square of the layout gets its starting man and every other square keeps what it held |
| Tabuleiros.Tabuleiro.ColocarLinha | src/modelo/Tabuleiro.java:25-29 | every dark square of the given row gets a man of the given colour and every other square keeps what it held |
| Tabuleiros.Tabuleiro.GetCasa | src/modelo/Tabuleiro.java:75-82 | the result is null exactly when the coordinates lie off the board, and otherwise it is the board's square with those coordinates |
| Tabuleiros.Tabuleiro.MoverPeca | src/modelo/Tabuleiro.java:84-106 | an empty origin or an occupied destination fails and changes nothing; it succeeds exactly otherwise; on success the origin is empty, the destination holds the promoted piece, and the contents are the old ones with just that piece moved |
| Tabuleiros.Tabuleiro.IsMovimentoValido | src/modelo/Tabuleiro.java:108-115 | true exactly when both squares exist and the origin is occupied |
| Tabuleiros.Tabuleiro.IsCapturaValida | src/modelo/Tabuleiro.java:117-120 | always false |
| Tabuleiros.Tabuleiro.VerificarVitoria | src/modelo/Tabuleiro.java:122-134 | true exactly when no piece of the opponent's colour is on the board; the board is not modified |
| Controle.Alternar | src/controle/Jogo.java:185 | the turn passes from the first player to the second and back |
| Controle.AlternarVolta | src/controle/Jogo.java:185 | passing the turn always changes the player, and passing it twice restores the player |
| Controle.CapturasObrigatorias | src/controle/Jogo.java:31-45 | every key of the mandatory map is an occupied square of the player's colour, mapped to a non-empty landing list |
| Controle.ChavesDasCapturas | src/controle/Jogo.java:31-45 | the mandatory captures are keyed by exactly the squares holding a piece of the player's colour with a non-empty capture list, and each maps to that list |
| Controle.CapturasAteProxima | src/controle/Jogo.java:35-41 | scanning one more square adds it to the map exactly when its piece can capture |
| Controle.CapturasAteTudo | src/controle/Jogo.java:33-44 | once every row is scanned, the map is the complete map of mandatory captures |
| Controle.Salto | src/controle/Jogo.java:136-139 | a jump is a move along either diagonal by two or more rows |
| Controle.Mover | src/modelo/Tabuleiro.java:92-105 | after the move the destination holds the promoted piece, the origin is empty, and every other square holds what it held before |
| Controle.Concluido | src/controle/Jogo.java:164-191 | the pieces and the mandatory map are kept; the game ends exactly when it already had or the opponent has no piece; a chain follows exactly when there is no victory, the move was a jump and its landing square can capture again, and then the chain is on that square with the same player; otherwise no chain is recorded; the player changes exactly when there is no victory and no chain |
| Controle.Efeito | src/controle/Jogo.java:154-161 | the board becomes the old one with the piece moved, the mandatory map is kept, and a chain can only follow a move of more than one row, on its landing square |
| Controle.Lance | src/controle/Jogo.java:98-191 | a move is accepted exactly when the controller's checks find no fault and the destination is free; a refusal reports the first failing check, or the occupied destination that moverPeca refuses |
| Controle.Rodada | src/controle/Jogo.java:60-199 | after one pass the mandatory map is the one of the prepared turn; once the game is over, a pass moves no piece and does not change the player |
| Controle.Partida | src/controle/Jogo.java:60-199 | no moves leave the state as it is, and a finished game stays finished with the same pieces and player whatever moves follow |
| Controle.Preparar | src/controle/Jogo.java:64-65 | outside a chain the mandatory map is recomputed for the player to move; during a chain the state is untouched |
| Controle.Rejeicao | src/controle/Jogo.java:98-143 | a move that is not refused comes from an on-board square holding a piece of the mover's colour, goes to an on-board square, and is made while the game is not over |
| Controle.RecusasBasicas | src/controle/Jogo.java:98-110 | a finished game, an off-board square, an empty origin and a piece of the wrong colour are refused, in that order |
| Controle.SequenciaComMesmaPeca | src/controle/Jogo.java:111-114 | during a chain every accepted move starts on the chain's square, and any other eligible origin is refused |
| Controle.SequenciaUsaMapaAntigo | src/controle/Jogo.java:64-65 | during a chain the mandatory map is not recomputed, and the old non-empty map still refuses a move that is not a diagonal jump (Jogo.java:139) |
| Controle.SequenciaAceita | src/controle/Jogo.java:111-143 | during a chain, a move is accepted exactly when it is eligible, starts on the chain square, goes to a free square, and either the kept map is empty or the move is a diagonal jump |
| Controle.CapturaImposta | src/controle/Jogo.java:115-143 | outside a chain with mandatory captures, a move is accepted exactly when the origin is a key, the destination is in its list, the move is a diagonal jump of more than one square and the destination is free |
| Controle.LanceLivre | src/controle/Jogo.java:98-154 | with no chain and no mandatory capture, a move is accepted exactly when it takes one's own piece to a free on-board square |
| Controle.DesfechoDoLance | src/controle/Jogo.java:154-191 | an accepted move moves the piece and keeps the mandatory map; then the game ends if the opponent has no piece, the chain continues from the landing square if the move was a jump and that square can capture again, and otherwise the chain is cleared and the turn passes |
| Controle.MoverConservaPecas | src/modelo/Tabuleiro.java:92-94 | moving a piece to a free square keeps the number of pieces of every colour |
| Controle.MoverPosicoes | src/modelo/Tabuleiro.java:92-94 | after a move, the squares of the moved piece's colour are the old ones with the origin replaced by the destination, and the squares of the other colour are unchanged |
| Controle.LanceConservaPecas | src/controle/Jogo.java:154 | an accepted move removes no piece of any colour |
| Controle.VitoriaSemOponente | src/controle/Jogo.java:164-170 | a move ends the game only if the opponent had no piece before it |
| Controle.LanceConsistente | src/controle/Jogo.java:98-191 | an accepted move keeps the controller consistent: pieces stay on the board, one of the two players is to move, and a chain is recorded exactly when it is under way, on a piece of the mover's colour |
| Controle.RodadaConserva | src/controle/Jogo.java:60-199 | a pass of the game loop keeps the controller consistent and the number of pieces of each colour |
| Controle.RodadaSemFim | src/controle/Jogo.java:164-170 | while both colours have pieces, a pass of the game loop does not end the game |
| Controle.PartidaConserva | src/controle/Jogo.java:60-199 | any sequence of passes keeps consistency and the piece counts, and does not end a game in which both colours have pieces |
| Controle.PartidaSemFim | src/controle/Jogo.java:47-199 | from the starting position, after any moves and for any capture function, each colour keeps twelve pieces and the game never ends |
| Controle.Jogo.constructor | src/controle/Jogo.java:47-58 | a new game has a fresh board in its starting layout, white to move, no chain, an empty mandatory map and the game not over |
| Controle.Jogo.EncontrarCapturasObrigatorias | src/controle/Jogo.java:31-45 | the scan returns exactly the map of mandatory captures for the player's colour |
| Controle.Jogo.ExaminarLinha | src/controle/Jogo.java:34-42 | scanning one row extends the map found so far with that row's squares that can capture |
| Controle.Jogo.PrepararTurno | src/controle/Jogo.java:64-65 | the new state is the old one prepared for the turn |
| Controle.Jogo.Validar | src/controle/Jogo.java:98-143 | returns exactly the first reason the controller's checks give for refusing the move; nothing changes |
| Controle.Jogo.TentarJogada | src/controle/Jogo.java:98-199 | a refused move reports its reason and leaves the state unchanged; an accepted one moves to the state the transition function gives |
| Controle.Jogo.Executar | src/controle/Jogo.java:154-191 | an occupied destination fails and changes nothing; otherwise the move takes effect as specified |
| Controle.Jogo.Concluir | src/controle/Jogo.java:164-191 | the state after the move becomes victory, a continued chain or a passed turn, as specified |
| Controle.Jogo.Prosseguir | src/controle/Jogo.java:172-191 | with no victory, a jump whose landing square can capture again continues the chain there; otherwise the chain is cleared and the turn passes |
| Controle.Jogo.JogarRodada | src/controle/Jogo.java:60-199 | one pass of the game loop: the new state is the specified pass applied to the old one, and the move fails exactly when the prepared move is refused |

## Left out

- `Tabuleiro.mostrar` and every console message: they are output only.
- Reading the move from `Scanner`, splitting it and parsing the integers is left out, along
  with the checks against a wrong number of fields and against non-numeric input. The model
  takes the four coordinates as parameters. A refused move is reported through the
  `Outcome`, where the source prints the exception's message.
- The endless `while (true)` loop of `Jogo.iniciar` is not modelled as a loop. One pass is
  `Controle.Jogo.JogarRodada`; any number of passes are specified by `Controle.Partida`.
  The `break` after a victory becomes the `terminado` flag, and a move attempted after it
  is refused with `JogoEncerrado`.
- The body of `Tabuleiro.getPossiveisCapturas` does not exist in the source. It is taken as
  an arbitrary function parameter, so nothing about flying captures or capture geometry is
  modelled.
- Capture removal and path checks are absent from `moverPeca`, so the model has none. Some
  of the repository's tests expect jumped pieces to be removed; the model follows the code.
- `Jogador` becomes a datatype of name and colour, because it has no behaviour.
- Pieces are values, so the identity of piece objects is modelled as equality of colour and
  kind.
- `inicializarPecas` constructs the abstract `Peca` directly, which Java would not compile.
  Those pieces are modelled as men.
- `isDama` is not declared in the source; it is modelled as the piece's kind being `Dama`.
- The unused board parameter of the movement rules is dropped.
- The mandatory-capture map is keyed by coordinates rather than `Casa` objects, and its
  lists hold the coordinates of the landing squares. On a well-formed board the squares
  and their coordinates correspond one to one. The Java `contains(casaDestino)` test
  (Jogo.java:121) compares `Casa` objects by identity. It agrees with the model's
  coordinate test only when `getPossiveisCapturas` returns the board's own squares, as the
  repository's tests expect (TabuleiroTest.java:367-373 compares the result with
  `tabuleiro.getCasa(4, 3)`).
- `Tabuleiros.Tabuleiro.MoverPeca` requires both squares to belong to this board. The
  controller only passes squares obtained from `getCasa`.
- Java's 32-bit `int` arithmetic is not modelled: coordinates are unbounded integers. The
  squares of a board have coordinates 0..7, and the controller compares the typed
  coordinates with the board bounds before it subtracts them. So no difference computed on
  a board, or by `Jogo.iniciar`, overflows.
- Regras.MovimentoRegularValido: answers differently from
  `PecaRegular.isMovimentoValido` for stand-alone squares, built with the public `Casa`
  constructor, whose coordinate differences overflow 32 bits. For example, take a man on
  `Casa(-2147483648, 0)` moving to an empty `Casa(2147483647, 1)`. In Java the row
  difference wraps to -1 and the move is accepted. The model refuses it, and so does
  `Regras.RegularRejeitaOutrasFormas`.
- Regras.MovimentoDamaValido: likewise, a king moving from `Casa(2147483647, 0)` to an
  empty `Casa(-2147483648, 1)` is accepted in Java, because both absolute differences are 1
  after wrap-around. The model refuses it.
