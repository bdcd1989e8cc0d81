/** Results and the error kinds of the betting core.
    Each error kind stands for one of the system's exception classes. */
module Wrappers {

  /** The exception classes thrown by the core. */
  datatype Error =
    | InvalidField           // CampoInvalidoException
    | BetNotRegistered       // ApostaNaoCadastradaException
    | ScenarioNotRegistered  // CenarioNaoCadastradoException
    | AlreadyClosed          // CenarioJaEncerradoException
    | NotClosed              // CenarioNaoEncerradoException
    | NoWagers               // CenarioSemApostasException

  /** A value or the exception that replaced it. */
  datatype Result<+T> = Ok(value: T) | Err(error: Error)

  /** A reference that may be null. */
  datatype Option<+T> = None | Some(value: T)

  /** The outcome of an operation that returns nothing (a Java `void` method). */
  datatype Outcome = Pass | Fail(error: Error)
}
