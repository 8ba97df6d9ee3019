/** How a step of an operator script ends. */
module Crashes {

  /** After `Crashed` nothing of the process is left; only durable state is. */
  datatype Op = Fine | Threw | Crashed
}
