/**
 The outcome taxonomy a device-under-test adapter reports for one statement:
 it returns normally, it raises a syntax rejection, or it raises a failure.
 Both carry the message that is raised with them.
 */
module Dut {

  datatype TestOutcome =
    | Passed
    | Syntax(message: string)
    | Failure(message: string)
}
