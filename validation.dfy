/** `validar_valor` of Desktop/banco/classes.py: the gate every amount of the
    Desktop ledger passes before it touches a balance or a tax. */
module Validation {
  import opened Errors

  /** `value` is the outcome of Python's `float(value)` coercion: `None` when
      the argument is not a number. Zero and non-numbers raise ValorInvalido,
      negatives raise ValorNegativo, and a positive value comes back unchanged. */
  function ValidarValor(value: Option<real>): (r: Result<real>)
    ensures r.Ok? <==> value.Some? && value.value > 0.0
    ensures r.Ok? ==> r.value == value.value
    ensures r == Err(ValorNegativo) <==> value.Some? && value.value < 0.0
    ensures r.Err? ==> r.error == ValorInvalido || r.error == ValorNegativo
  {
    match value
    case None => Err(ValorInvalido)
    case Some(v) =>
      if v == 0.0 then Err(ValorInvalido)
      else if v < 0.0 then Err(ValorNegativo)
      else Ok(v)
  }
}
