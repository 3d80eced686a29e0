/** The reasons a move is refused. The Java code throws one exception type,
    MovimentoInvalidoException, with one message for each reason: OrigemVazia stands for
    both the controller's message (Jogo.iniciar) and moverPeca's (Tabuleiro.moverPeca).
    JogoEncerrado has no message: it stands for the loop of Jogo.iniciar having ended
    with the break after a victory. */
module Erros {

  datatype Erro =
    | OrigemVazia            // the origin square holds no piece
    | DestinoOcupado         // the destination square already holds a piece
    | ForaDoTabuleiro        // a coordinate lies outside 0..7
    | CorErrada              // the origin piece is not the active player's
    | SequenciaInterrompida  // a capture chain is under way and another piece was chosen
    | OrigemSemCaptura       // captures are mandatory and the origin is not one that can capture
    | DestinoSemCaptura      // captures are mandatory and the destination is not one of the origin's
    | CapturaObrigatoria     // captures are mandatory and the move is not a diagonal jump
    | JogoEncerrado          // the game loop has already ended with a victory
}
