/** Error kinds raised by both ledgers, and the result types that carry them.
    Desktop/banco/errors.py and errors.py declare only empty exception classes;
    each class that the ledger code raises becomes one constructor here. */
module Errors {

  datatype Error =
    | ValorInvalido        // ValorInvalidoError: zero, non-numeric or otherwise invalid value
    | ValorNegativo        // ValorNegativoError: a value below zero
    | SaldoInsuficiente    // SaldoInsuficienteError
    | LimiteExcedido       // LimiteExcedidoError
    | ContaNaoEncontrada   // ContaNaoEncontradaError
    | AgenciaNaoEncontrada // AgenciaNaoEncontradaError
    | SenhaIncorreta       // SenhaIncorretaError
    | ContaJaExistente     // ContaJaExistenteError
    | AgenciaJaExistente   // AgenciaJaExistenteError
    | ClienteInvalido      // ClienteError (errors.py)

  datatype Option<T> = None | Some(value: T)

  /** The value an operation returns, or the exception it raises. */
  datatype Result<T> = Ok(value: T) | Err(error: Error)

  /** The outcome of an operation that returns nothing when it succeeds. */
  datatype Outcome = Done | Fail(error: Error)
}
