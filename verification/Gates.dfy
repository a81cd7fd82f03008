/** Activation states, as plans record them and every later stage reads them. */
module Gates {
  datatype GateState = Active | Inactive | Unknown
}
