/** The record `runj` keeps per container. */
module RunjState {
  /** `Unset` is the empty string, the zero value of the field. */
  datatype Status = Unset | Creating | Created | Running | Stopped

  datatype Record = Record(id: string, jid: int, status: Status, bundle: string, pid: int, ociVersion: string)

  /** The order of the life cycle. */
  function Rank(st: Status): nat {
    match st case Unset => 0 case Creating => 1 case Created => 2 case Running => 3 case Stopped => 4
  }
}
