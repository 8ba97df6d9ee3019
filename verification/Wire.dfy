/** Vocabulary shared by the Runner modules: what a backend call can answer,
    what the control endpoint can ask for, and how a delivery can be settled. */
module Wire {

  datatype Option<+T> = None | Some(value: T)

  /** The exception families the consumer distinguishes (runner/errors.py).  `Execution`
      and `Runner` are RunnerErrors that are neither transport nor protocol errors;
      `Unknown` is any exception outside the RunnerError hierarchy. */
  datatype Fault = Auth | Transport | Protocol | Execution(cancelRequested: bool) | Runner | Unknown

  datatype Reply<+T> = Ok(value: T) | Raised(fault: Fault)

  /** Answer of the control endpoint.  `Malformed` is a value of another type. */
  datatype Control = Malformed | Flags(stop: bool, cancel: bool, force: bool)

  /** The single decision `_check_control` extracts from an answer. */
  datatype Demand = Clear | Cancel | Force

  /** What an answer demands, read off its flags. */
  predicate Demands(r: Reply<Control>, d: Demand) {
    && r.Ok? && r.value.Flags?
    && match d
       case Force => r.value.force
       case Cancel => r.value.cancel && !r.value.force
       case Clear => !r.value.cancel && !r.value.force
  }

  /** The fault an answer amounts to: its own, or a protocol error for a value of another type. */
  predicate Faults(r: Reply<Control>, f: Fault) { r == Raised(f) || (r == Ok(Malformed) && f == Protocol) }

  function DemandOf(c: Control): Demand
    requires c.Flags?
  {
    if c.force then Force else if c.cancel then Cancel else Clear
  }

  /** `_check_control`: a demand, or the fault that settles the delivery. */
  function CheckControl(r: Reply<Control>): (d: Reply<Demand>)
    ensures d.Ok? ==> Demands(r, d.value)
    ensures d.Raised? ==> Faults(r, d.fault)
  {
    match r
    case Raised(f) => Raised(f)
    case Ok(Malformed) => Raised(Protocol)
    case Ok(c) => Ok(DemandOf(c))
  }

  /** Whatever the outside world answers. */
  method Arbitrary<T(0)>() returns (answer: T) { answer := *; }

  function Min(a: int, b: int): (m: int)
    ensures m <= a && m <= b && (m == a || m == b)
  {
    if a <= b then a else b
  }
}
