/**
 * The cause codes handed to the kernel's panic sink `core_panic`.
 * The sink itself (diagnostic output and a permanent halt) lives outside
 * the boot code; the boot code only chooses the cause and the message.
 */
module Panic {

  /** The closed set of causes raised by the SAM4S fault and default handlers. */
  datatype Cause = DummyHandler | HardFault | BusFault | UsageFault
}
