/** Parser actions, as they hang from the states of the generator. */
module Actions {

  datatype ActionType =
    | SHIFT
    | ACCEPT
    | REDUCE
    | ERROR
    | SSCONFLICT
    | SRCONFLICT
    | RRCONFLICT
    | SH_RESOLVED
    | RD_RESOLVED
    | NOT_USED
    | SHIFTREDUCE

  /** `x` is the union of the new state, if a shift, and the rule, if a reduce. */
  datatype Action = Action(sp: nat, typ: ActionType, x: nat)
}
